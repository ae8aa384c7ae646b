/** The listener's line handler over its variables, proved to be the step function. */
module ListenerThread {
  import opened Bytes
  import opened Markers
  import opened Listener

  class Thread {
    // shared with the main thread
    var seqn: Option<Checkpoint<string>>
    var inProgress: Option<Checkpoint<string>>
    var xai: Option<Checkpoint<string>>
    var first: Option<string>
    var last: Option<string>
    var endEvent: bool
    // the thread's own
    var name: string
    var stmt: bool
    var query: bool
    var data: bool
    var op: char
    var phase: char
    var pos: nat
    var index: nat
    var files: nat

    ghost function St(): State<string>
      reads this
    {
      State(Shared(seqn, inProgress, xai, first, last, endEvent),
            Local(name, stmt, query, data, op, phase, pos, index, files))
    }

    /** The flags a fresh thread starts with; the rest is whatever memory held. */
    constructor ()
      ensures !stmt && !query && !data
    {
      stmt, query, data := false, false, false;
    }

    /** One complete line. Says whether the column branch ran, which is where a spilled line resumes. */
    method Dispatch(line: string) returns (column: bool)
      requires Classify(line) != Malformed
      modifies this
      ensures St() == Listen(old(St()), Classify(line))
      ensures column == (St().lo.stmt && St().lo.query && Classify(line) == Column)
    {
      hide Classify, MarkerLine;
      column := false;
      var ln := Classify(line);
      if data && !ln.Column? {
        if phase != 'B' {
          query := false;
        }
        data := false;
        xai := inProgress;
      }
      if ln.IsRow() {
        if stmt {
          column := RowEntry(ln);
        }
      } else {
        Marker(ln);
      }
    }

    method RowEntry(ln: Line<string>) returns (column: bool)
      requires ln.IsRow()
      modifies this
      ensures St() == RowLine(old(St()), ln)
      ensures column == (query && ln.Column?)
    {
      var found := false;
      column := false;
      if query && ln.Column? {
        column := true;
      } else if query && ln.Where? {
        data := true;
        if op == 'U' {
          phase := 'B';
        }
      } else if query && ln.Set? {
        data := true;
        if op == 'U' {
          phase := 'P';
        }
      } else if ln.Insert? {
        op, phase, found := 'P', 'T', true;
      } else if ln.Update? {
        op, phase, found := 'U', 'X', true;
      } else if ln.Delete? {
        op, phase, found := 'D', 'L', true;
      }
      if found {
        query, data := false, false;
        index := index + 1;
        if files > 0 || pos != PosOf(seqn) || index > IndexOf(seqn) {
          query := true;
        }
      }
    }

    method Marker(ln: Line<string>)
      requires !ln.IsRow() && ln != Malformed
      modifies this
      ensures St() == MarkerLine(old(St()), ln)
    {
      if ln.Start? {
        files := files + 1;
        name := ln.name;
        if first != Some(name) {
          inProgress := Some(Checkpoint(name, BIN_LOG_HEADER_SIZE, 0));
        }
      } else if ln.First? {
        files := 0;
        name := ln.name;
      } else if ln.Last? {
        if last == Some(name) {
          seqn := inProgress;
          endEvent := true;
        }
      } else {
        Position(ln);
      }
    }

    method Position(ln: Line<string>)
      requires !ln.IsRow() && !ln.Start? && !ln.First? && !ln.Last?
      modifies this
      ensures St() == MarkerLine(old(St()), ln)
    {
      if ln.Begin? {
        pos, index := ln.pos, 0;
        inProgress := Some(Checkpoint(name, pos, 0));
      } else if ln.Stmt? {
        stmt := true;
        pos := ln.pos;
      } else if ln.Commit? {
        query, stmt, data := false, false, false;
        pos, index := ln.pos, 0;
        inProgress := Some(Checkpoint(name, ln.end, index));
        xai := inProgress;
      } else if ln.Query? {
        pos, index := ln.pos, 0;
        inProgress := Some(Checkpoint(name, ln.end, 0));
        xai := inProgress;
      }
    }
  }
}
