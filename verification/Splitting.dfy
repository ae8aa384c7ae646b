/** Cutting a stream into lines, one character at a time. */
module Splitting {

  /** The complete lines of `s`, without their line feeds. */
  function Lines(s: string): seq<string> {
    if s == "" then []
    else if s[|s| - 1] == '\n' then Lines(s[..|s| - 1]) + [Tail(s[..|s| - 1])]
    else Lines(s[..|s| - 1])
  }

  /** What follows the last line feed. */
  function Tail(s: string): string {
    if s == "" || s[|s| - 1] == '\n' then "" else Tail(s[..|s| - 1]) + [s[|s| - 1]]
  }

  function Join(lines: seq<string>): string {
    if lines == [] then "" else Join(lines[..|lines| - 1]) + lines[|lines| - 1] + "\n"
  }

  predicate OnOneLine(s: string) {
    '\n' !in s
  }

  /** Lines and tail are the one way to cut `s` at its line feeds. */
  lemma {:induction false} SplitIsFaithful(s: string)
    ensures Join(Lines(s)) + Tail(s) == s
    ensures forall i :: 0 <= i < |Lines(s)| ==> OnOneLine(Lines(s)[i])
    ensures OnOneLine(Tail(s))
  {
    if s != "" {
      var t := s[..|s| - 1];
      SplitIsFaithful(t);
      assert s == t + [s[|s| - 1]];
      if s[|s| - 1] == '\n' {
        assert Lines(s)[..|Lines(s)| - 1] == Lines(t);
      }
    }
  }

  lemma LinesStep(s: string, c: char)
    ensures Lines(s + [c]) == if c == '\n' then Lines(s) + [Tail(s)] else Lines(s)
    ensures Tail(s + [c]) == if c == '\n' then "" else Tail(s) + [c]
  {
    assert (s + [c])[..|s + [c]| - 1] == s;
  }

  lemma {:induction false} SplitIsUnique(s: string, lines: seq<string>, tail: string)
    requires s == Join(lines) + tail && OnOneLine(tail)
    requires forall i :: 0 <= i < |lines| ==> OnOneLine(lines[i])
    ensures lines == Lines(s) && tail == Tail(s)
    decreases |lines|, |tail|
  {
    if tail != "" {
      var c := tail[|tail| - 1];
      assert s[..|s| - 1] == Join(lines) + tail[..|tail| - 1];
      SplitIsUnique(s[..|s| - 1], lines, tail[..|tail| - 1]);
      assert tail == tail[..|tail| - 1] + [c];
    } else if lines != [] {
      var init, last := lines[..|lines| - 1], lines[|lines| - 1];
      assert s == Join(init) + last + "\n";
      assert s[..|s| - 1] == Join(init) + last;
      SplitIsUnique(s[..|s| - 1], init, last);
      assert lines == init + [last];
    }
  }

  /** Cutting continues from the tail: earlier lines are never looked at again. */
  lemma {:induction false} SplitContinues(s: string, t: string)
    ensures Lines(s + t) == Lines(s) + Lines(Tail(s) + t)
    ensures Tail(s + t) == Tail(Tail(s) + t)
  {
    hide Lines, Tail;
    if t == "" {
      assert s + t == s && Tail(s) + t == Tail(s);
      TailIsOneLine(s);
    } else {
      var u, c := t[..|t| - 1], t[|t| - 1];
      SplitContinues(s, u);
      assert s + t == s + u + [c] && Tail(s) + t == Tail(s) + u + [c];
      LinesStep(s + u, c);
      LinesStep(Tail(s) + u, c);
    }
  }

  lemma TailIsOneLine(s: string)
    ensures Lines(Tail(s)) == [] && Tail(Tail(s)) == Tail(s)
  {
    SplitIsFaithful(s);
    SplitIsUnique(Tail(s), [], Tail(s));
  }
}
