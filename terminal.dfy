/** Output: the lines the command prints, the in-memory buffer a report is
    rendered into, and the terminal seen as an alternate-screen flag plus the
    screens (frames) written on it. Colours and the text layout of the job
    tree and of the annotation table belong to the rendering library and are
    kept opaque. */
module Term {
  import opened Api
  import Rest

  datatype Line =
    | Blank
    | Heading(title: string)                          // a bold section title
    | Banner(seconds: int)                            // "Refreshing run status every N seconds. Press Ctrl+C to quit."
    | Permalink(repo: string, runId: int)             // "https://github.com/{repo}/actions/runs/{id}"
    | JobTree(jobs: seq<Job>)                         // the rendered job/step tree
    | AnnotationTable(annotations: seq<Annotation>)   // the rendered annotation list

  /** Seconds between two polls of the run. */
  const RefreshSeconds := 3

  /** What every refreshed screen shows before the report. */
  function Header(repo: string, runId: int): seq<Line>
  {
    [Banner(RefreshSeconds), Blank, Permalink(repo, runId), Blank]
  }

  /** `screens` with `lines` written at the end of the current (last) screen;
      with no screen yet, the lines open the first one. */
  function WriteToLast(screens: seq<seq<Line>>, lines: seq<Line>): seq<seq<Line>>
  {
    if screens == [] then [lines] else screens[..|screens| - 1] + [screens[|screens| - 1] + lines]
  }

  /** Writing after a frame was opened extends that frame and leaves the
      earlier ones alone. */
  lemma WriteToLastFrame(screens: seq<seq<Line>>, frame: seq<Line>, lines: seq<Line>)
    ensures WriteToLast(screens + [frame], lines) == screens + [frame + lines]
  {
    assert (screens + [frame])[..|screens|] == screens;
  }

  /** The scripted outcome of the next copy to the terminal; copies succeed
      once the script is used up. */
  function NextFault(faults: seq<Option<Error>>): Option<Error>
  {
    if faults == [] then None else faults[0]
  }

  /** An in-memory byte buffer that a report is printed into. */
  class Buffer {
    var lines: seq<Line>

    constructor ()
      ensures lines == []
    {
      lines := [];
    }

    method Println(line: Line)
      modifies this
      ensures lines == old(lines) + [line]
    {
      lines := lines + [line];
    }

    method Reset()
      modifies this
      ensures lines == []
    {
      lines := [];
    }
  }

  /** The terminal the command draws on. */
  class Terminal {
    var alternate: bool
    var screens: seq<seq<Line>>
    var copyFaults: seq<Option<Error>>

    constructor (copyFaults: seq<Option<Error>>)
      ensures !alternate && screens == [] && this.copyFaults == copyFaults
    {
      alternate := false;
      screens := [];
      this.copyFaults := copyFaults;
    }

    method StartAlternateScreen()
      modifies this
      ensures alternate && screens == old(screens) && copyFaults == old(copyFaults)
    {
      alternate := true;
    }

    method StopAlternateScreen()
      modifies this
      ensures !alternate && screens == old(screens) && copyFaults == old(copyFaults)
    {
      alternate := false;
    }

    /** Clears the screen: what is written next forms a new frame. */
    method RefreshScreen()
      modifies this
      ensures screens == old(screens) + [[]]
      ensures alternate == old(alternate) && copyFaults == old(copyFaults)
    {
      screens := screens + [[]];
    }

    method Println(line: Line)
      modifies this
      ensures screens == WriteToLast(old(screens), [line])
      ensures alternate == old(alternate) && copyFaults == old(copyFaults)
    {
      screens := WriteToLast(screens, [line]);
    }

    /** Copies the buffer to the terminal; on a failing write nothing of the
        buffer reaches the screen and the error is returned. */
    method Copy(buf: Buffer) returns (err: Option<Error>)
      modifies this
      ensures err == NextFault(old(copyFaults))
      ensures copyFaults == Rest.Later(old(copyFaults))
      ensures screens == if err.None? then WriteToLast(old(screens), buf.lines) else old(screens)
      ensures alternate == old(alternate)
    {
      err := NextFault(copyFaults);
      copyFaults := Rest.Later(copyFaults);
      if err.None? {
        screens := WriteToLast(screens, buf.lines);
      }
    }
  }
}
