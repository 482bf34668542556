/** When the calls of the stimulus builder succeed (stimgen.py), and what they leave as it was. */
module BuilderProgress {
  import opened Wrap
  import opened Stimulus
  import opened Validation
  import opened BuilderFacts
  import opened BuilderState

  /** The sets remembered are those of a change made by now. */
  predicate Tame(s: Cursor) { s.setAt <= s.lastChange <= s.t }

  /** Between calls: the invariant of the builder. */
  ghost predicate Fit(c: Params, s: Cursor) { Inv(c, s) && Tame(s) }

  /** What all calls keep of a state, and what a change that is made in a block adds to the block. */
  predicate Onward(s: Cursor, r: Cursor) { s.events <= r.events && s.t <= r.t && Tame(r) && r.open == s.open }

  lemma GapPositive(c: Params, s: Cursor)
    requires Inv(c, s)
    ensures 0 < c.sep <= c.gap && s.lastChange >= 0 && s.lastChange <= s.t
  {
    hide Core, Stream, WellFormed;
    InvGap(c, s);
  }

  lemma TakenNone(c: Params, s: Cursor)
    requires c.gap > 0 && s.setAt < s.t
    ensures Taken(c, s) == {}
  {}

  lemma SampleWorks(c: Params, s: Cursor, l: string)
    requires Fit(c, s) && !s.open && IsLabel(l) && l !in s.labels
    ensures SampleDone(c, s, Some(l)).Some?
    ensures var r := SampleDone(c, s, Some(l)).value;
      && Fit(c, r) && Onward(s, r) && r.vals == s.vals && r.level == s.level && r.labels == s.labels + {l}
      && exists e :: e in r.events && e.Sample?
  {
    SampleKeeps(c, s, Some(l));
    GapPositive(c, s);
    hide Inv, IsLabel;
    var r := SampleDone(c, s, Some(l)).value;
    assert r.events[|s.events|].Sample? && r.events[|s.events|] in r.events;
  }

  lemma EdgeWorks(c: Params, s: Cursor, port: string, rising: bool)
    requires Fit(c, s) && ClockOf(c, port).Some? && ClockOf(c, port).value in s.level && s.level[ClockOf(c, port).value] != rising
    ensures EdgeDone(c, s, port, rising).Some?
    ensures var r := EdgeDone(c, s, port, rising).value;
      && Fit(c, r) && Onward(s, r) && r.vals == s.vals && r.level == s.level[ClockOf(c, port).value := rising] && r.labels == s.labels
      && (s.open ==> r.group == s.group + 1 && Taken(c, r) <= Taken(c, s))
  {
    EdgeKeeps(c, s, port, rising);
    GapPositive(c, s);
    hide Inv, ClockOf;
  }

  lemma GlblWorks(c: Params, s: Cursor, sig: Signal, level: bool)
    requires Fit(c, s)
    ensures var r := GlblDone(c, s, sig, level);
      && Fit(c, r) && Onward(s, r) && r.vals == s.vals && r.level == s.level && r.labels == s.labels
      && (s.open ==> r.group == s.group + 1 && Taken(c, r) <= Taken(c, s))
  {
    GlblKeeps(c, s, sig, level);
    GapPositive(c, s);
    hide Inv;
  }

  lemma PutWorks(c: Params, s: Cursor, a: Assign)
    requires c.gap > 0 && Tame(s) && PutOk(c, s, a)
    ensures var r := Put(c, s, a);
      && Onward(s, r) && r.vals == s.vals[a.port := a.value] && r.level == s.level && r.labels == s.labels && r.lastChange == r.t
      && Taken(c, r) == Taken(c, s) + {a.port} && (s.open ==> r.group == s.group + 1)
  {
    hide InBits, BitsOf;
  }

  /** A port of one bit is changed alone, or in a block in which it is not set yet. */
  lemma AsyncWorks(c: Params, s: Cursor, a: Assign)
    requires Fit(c, s) && |InBits(c.m, a.port)| == 1 && BitsOf(a.value, 1).Some? && (s.open ==> a.port !in Taken(c, s))
    ensures AsyncDone(c, s, a).Some?
    ensures var r := AsyncDone(c, s, a).value;
      && Fit(c, r) && Onward(s, r) && r.vals == s.vals[a.port := a.value] && r.level == s.level && r.labels == s.labels
      && (s.open ==> r.group == s.group + 1 && Taken(c, r) == Taken(c, s) + {a.port})
  {
    GapPositive(c, s);
    var before := s.(t := AloneTime(c, s, c.sep));
    if !s.open { TakenNone(c, before); }
    assert PutOk(c, before, a);
    PutWorks(c, before, a);
    AsyncKeeps(c, s, a);
    hide Inv, InBits, BitsOf, Put;
  }

  predicate Settles(c: Params, s: Cursor, a: Assign) {
    Settable(c, s, a) && InBits(c.m, a.port) != [] && BitsOf(a.value, |InBits(c.m, a.port)|).Some?
  }

  predicate DistinctPorts(args: seq<Assign>) { forall i, j :: 0 <= i < j < |args| ==> args[i].port != args[j].port }

  lemma {:induction false} PutAllWorks(c: Params, s: Cursor, args: seq<Assign>)
    requires c.gap > 0 && Tame(s) && DistinctPorts(args) && forall a | a in args :: Settles(c, s, a) && a.port !in Taken(c, s)
    ensures PutAll(c, s, args, true).Some?
    ensures var r := PutAll(c, s, args, true).value; Onward(s, r) && r.level == s.level && r.labels == s.labels
    decreases args
  {
    hide InBits, BitsOf, Holds, Put, ClsOf, Taken;
    if args != [] {
      var a, rest := args[0], args[1..];
      assert a in args;
      if Holds(s, a) {
        PutAllWorks(c, s, rest);
      } else {
        PutWorks(c, s, a);
        var next := Put(c, s, a);
        forall b | b in rest
          ensures Settles(c, next, b) && b.port !in Taken(c, next)
        {
          var i :| 0 <= i < |rest| && rest[i] == b;
          assert args[i + 1] == b && b in args;
        }
        PutAllWorks(c, next, rest);
      }
    }
  }

  /** Data ports are set together, whatever was set before. */
  lemma SetWorks(c: Params, s: Cursor, args: seq<Assign>)
    requires Fit(c, s) && !s.open && DistinctPorts(args) && forall a | a in args :: Settles(c, s, a)
    ensures SetDone(c, s, args).Some?
    ensures var r := SetDone(c, s, args).value;
      Fit(c, r) && Onward(s, r) && r.vals == Assigned(s.vals, args) && r.level == s.level && r.labels == s.labels
  {
    GapPositive(c, s);
    var before := s.(t := SetTime(c, s, args));
    NothingTaken(c, s, args);
    assert forall a | a in args :: Settles(c, before, a);
    hide Inv, InBits, BitsOf, PutAll, ClsOf, Taken, SetTime;
    PutAllWorks(c, before, args);
    PutAllAtomic(c, before, args, true);
    SetKeeps(c, s, args);
  }

  lemma NothingTaken(c: Params, s: Cursor, args: seq<Assign>)
    requires Fit(c, s) && c.gap > 0 && !s.open
    ensures SetTime(c, s, args) >= s.t && forall a | a in args :: a.port !in Taken(c, s.(t := SetTime(c, s, args)))
  {
    hide Stream, WellFormed, Companions, Joinable;
    var t := SetTime(c, s, args);
    assert s.setAt == -1 || (s.events != [] && s.setAt <= s.events[|s.events| - 1].t);
  }

  /** In a block, a set of a port that is not set yet there and has another value. */
  lemma SetInWorks(c: Params, s: Cursor, a: Assign)
    requires Fit(c, s) && s.open && Settles(c, s, a) && a.port !in Taken(c, s) && !Holds(s, a)
    ensures SetDone(c, s, [a]).Some?
    ensures var r := SetDone(c, s, [a]).value;
      && Fit(c, r) && Onward(s, r) && r.vals == s.vals[a.port := a.value] && r.level == s.level && r.labels == s.labels
      && r.group == s.group + 1 && Taken(c, r) == Taken(c, s) + {a.port}
  {
    GapPositive(c, s);
    hide InBits, BitsOf, ClsOf, Inv;
    assert [a][1..] == [] && PutAll(c, Put(c, s, a), [], true) == Some(Put(c, s, a));
    PutWorks(c, s, a);
    SetKeeps(c, s, [a]);
  }

  lemma OpenWorks(c: Params, s: Cursor)
    requires Fit(c, s) && !s.open
    ensures Opened(c, s).Some?
    ensures var r := Opened(c, s).value;
      && Fit(c, r) && s.events <= r.events && r.vals == s.vals && r.level == s.level && r.labels == s.labels
      && r.open && r.group == 0 && Taken(c, r) == {}
  {
    OpenedKeeps(c, s);
    GapPositive(c, s);
    hide Inv;
    TakenNone(c, Opened(c, s).value);
  }

  lemma CloseWorks(c: Params, s: Cursor)
    requires Fit(c, s) && s.open && s.group >= 2
    ensures Closed(c, s).Some?
    ensures var r := Closed(c, s).value;
      && Fit(c, r) && s.events <= r.events && r.vals == s.vals && r.level == s.level && r.labels == s.labels && !r.open
  {
    hide Inv;
    ClosedKeeps(c, s);
    GapPositive(c, s);
  }

  lemma WaitWorks(c: Params, s: Cursor, ps: int)
    requires Fit(c, s) && !s.open && ps >= 0
    ensures WaitDone(s, ps).Some?
    ensures var r := WaitDone(s, ps).value; Fit(c, r) && Onward(s, r) && r == s.(t := s.t + ps)
  {
    hide Inv, FreshTime;
    LaterInv(c, s, s.t + ps);
  }
}
