/**
 * A text file open for writing: what has been written to it so far.
 */
module TextFiles {
  class TextFile {
    var text: string

    /** A file opened with mode 'w': empty. */
    constructor()
      ensures text == ""
    {
      text := "";
    }

    /** file.write(s): s is appended. */
    method Write(s: string)
      modifies this
      ensures text == old(text) + s
    {
      text := text + s;
    }
  }
}
