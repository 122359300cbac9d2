/**
 * `getAlphaNumericVar` of src/utils.py: how an identifier becomes a Python name. The
 * pinyin transliteration and the SHA-256 hex digest it calls are library code outside
 * this model; they are the two functions of a `NameScheme`.
 */
module Naming {
  import opened Chars

  datatype NameScheme = NameScheme(pinyin: string -> string, digest: string -> string)

  /** `Lexer.ischinese` applied to a whole name: some character lies in U+4E00..U+9FFF. */
  predicate ContainsChinese(name: string)
  {
    exists i :: 0 <= i < |name| && IsChinese(name[i])
  }

  /** The text of an identifier token: CJK and ASCII alphanumeric characters only. */
  predicate IsWordText(name: string)
  {
    forall i :: 0 <= i < |name| ==> IsWordChar(name[i])
  }

  /**
   * A name without CJK characters is kept; any other becomes its pinyin, an underscore
   * and its digest.
   */
  function Mangle(scheme: NameScheme, name: string): (r: string)
    ensures !ContainsChinese(name) ==> r == name
  {
    if !ContainsChinese(name) then name
    else scheme.pinyin(name) + "_" + scheme.digest(name)
  }

  /** A mangled name ends with an underscore followed by the digest. */
  lemma MangleEndsWithDigest(scheme: NameScheme, name: string)
    requires ContainsChinese(name)
    ensures var r := Mangle(scheme, name);
      |r| > |scheme.digest(name)| && r[|r| - |scheme.digest(name)| - 1..] == "_" + scheme.digest(name)
  {
  }

  /** A 64-character digest, as a SHA-256 hex digest is. */
  predicate HexDigestLength(scheme: NameScheme, name: string)
  {
    |scheme.digest(name)| == 64
  }

  /**
   * Two different identifiers get two different Python names, provided the digests are
   * 64 characters long and differ for the two names when both are mangled (the collision
   * resistance the source relies on). A kept name has no underscore, while a mangled one
   * has an underscore just before its digest.
   */
  lemma {:induction false} MangleSeparatesNames(scheme: NameScheme, a: string, b: string)
    requires a != b && IsWordText(a) && IsWordText(b)
    requires HexDigestLength(scheme, a) && HexDigestLength(scheme, b)
    requires ContainsChinese(a) && ContainsChinese(b) ==> scheme.digest(a) != scheme.digest(b)
    ensures Mangle(scheme, a) != Mangle(scheme, b)
  {
    var ma, mb := Mangle(scheme, a), Mangle(scheme, b);
    if ContainsChinese(a) {
      MangleEndsWithDigest(scheme, a);
    }
    if ContainsChinese(b) {
      MangleEndsWithDigest(scheme, b);
    }
    if ContainsChinese(a) && ContainsChinese(b) {
      assert ma[|ma| - 64..] == scheme.digest(a) by {
        assert ma[|ma| - 65..] == "_" + scheme.digest(a);
      }
      assert mb[|mb| - 64..] == scheme.digest(b) by {
        assert mb[|mb| - 65..] == "_" + scheme.digest(b);
      }
    } else if ContainsChinese(a) {
      assert ma[|ma| - 65] == '_' by {
        assert ma[|ma| - 65..] == "_" + scheme.digest(a);
      }
      assert !IsWordChar(ma[|ma| - 65]);
    } else if ContainsChinese(b) {
      assert mb[|mb| - 65] == '_' by {
        assert mb[|mb| - 65..] == "_" + scheme.digest(b);
      }
      assert !IsWordChar(mb[|mb| - 65]);
    }
  }
}
