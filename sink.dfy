/**
 * The standard logger as the library uses it: every Println or Fatalln call
 * writes one line; Fatal* additionally ends the process, recorded here as
 * the `exited` flag.
 */
module Sinks {

  class Sink {
    ghost var lines: seq<string>
    ghost var exited: bool

    constructor ()
      ensures lines == [] && !exited
    {
      lines, exited := [], false;
    }

    /** log.Println: one line written, the process goes on. */
    method Println(line: string)
      modifies this
      ensures lines == old(lines) + [line]
      ensures exited == old(exited)
    {
      lines := lines + [line];
    }

    /** log.Fatal / log.Fatalln: one line written, then the process exits with status 1. */
    method Fatalln(line: string)
      modifies this
      ensures lines == old(lines) + [line]
      ensures exited
    {
      lines, exited := lines + [line], true;
    }
  }
}
