/** The emitter of src/emit.py: two text buffers that only ever grow at their end. */
module Emitting {
  class Emitter {
    /** Where `writeFile` writes; the writing itself is not part of this model. */
    const fullPath: string
    var header: string
    var code: string

    constructor (fullPath: string)
      ensures this.fullPath == fullPath
      ensures header == "" && code == ""
    {
      this.fullPath := fullPath;
      header := "";
      code := "";
    }

    /** `emit`: appends to the code buffer. */
    method Emit(text: string)
      modifies this
      ensures code == old(code) + text
      ensures old(code) <= code
      ensures header == old(header)
    {
      code := code + text;
    }

    /** `emitLine`: appends a line to the code buffer. */
    method EmitLine(text: string)
      modifies this
      ensures code == old(code) + text + "\n"
      ensures old(code) <= code
      ensures header == old(header)
    {
      code := code + text + "\n";
    }

    /** `headerLine`: appends a line to the header buffer. */
    method HeaderLine(text: string)
      modifies this
      ensures header == old(header) + text + "\n"
      ensures old(header) <= header
      ensures code == old(code)
    {
      header := header + text + "\n";
    }

    /**
     * `writeFile`, as the text it writes: the header followed by the code. It changes
     * neither buffer, so writing twice writes the same text.
     */
    method WriteFile() returns (contents: string)
      ensures contents == header + code
      ensures |contents| == |header| + |code|
      ensures header <= contents
    {
      contents := header + code;
    }
  }
}
