/** The assembly line buffer (type/Alines.java): lines are only ever added
    at the end. */
module AsmLines {

  /** `Alines`: the lines emitted so far, in order. */
  class Alines {
    var lines: seq<string>

    /** `new Alines()`: an empty buffer. */
    constructor()
      ensures lines == []
    {
      lines := [];
    }

    /** `add`: appends one line at the end; the line is passed already
        formatted. */
    method Add(line: string)
      modifies this
      ensures lines == old(lines) + [line]
      ensures old(lines) <= lines
      ensures old(lines) == [] ==> lines == [line]
    {
      lines := lines + [line];
    }

    /** `addAll`: appends the other buffer's lines in order; adding a buffer
        to itself doubles it. */
    method AddAll(other: Alines)
      modifies this
      ensures lines == old(lines) + old(other.lines)
      ensures old(lines) <= lines
      ensures old(lines) == [] ==> lines == old(other.lines)
    {
      lines := lines + other.lines;
    }

    /** `getLines`. */
    function GetLines(): seq<string>
      reads this
    {
      lines
    }
  }
}
