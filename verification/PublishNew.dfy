/** `atomic_write_new`: write a temporary file, then publish it with a hard link that refuses to
    overwrite. Any number of writers, any interleaving, crashes anywhere. */
module PublishNew {
  import opened FileSystem

  datatype Outcome = Published | Refused | Failed

  /** Where a writer is. A live writer remembers the name and the inode of its temporary file. */
  datatype Pc =
    | Start
    | Writing(tmp: Name, inode: nat)
    | Written(tmp: Name, inode: nat)
    | Cleanup(tmp: Name, inode: nat, outcome: Outcome)
    | Finished(tmp: Name, outcome: Outcome)
    | NotOpened                                // no temporary file was ever created
    | LeftBehind(tmp: Name, outcome: Outcome)  // the unlink failed and its error escapes
    | Crashed
    | CrashedWith(tmp: Name)

  datatype Writer = Writer(data: Bytes, pc: Pc)

  /** `winner` records who linked the target. */
  datatype State = State(fs: Fs, writers: seq<Writer>, winner: int)

  const NOBODY := -1

  datatype Action =
    | Open(tmp: Name, inode: nat)  // NamedTemporaryFile: exclusive creation
    | OpenError                    // creating the directory or the file fails
    | Write(upto: nat)             // some more bytes reach the file
    | Close                        // everything written, flushed and synced
    | Fail                         // an I/O error while writing
    | Link                         // os.link(temporary_path, path)
    | LinkError                    // os.link fails for another reason
    | Remove                       // temporary_path.unlink(), ignoring a missing file
    | RemoveError                  // the unlink fails and the name stays
    | Crash                        // the process dies

  predicate Live(pc: Pc) {
    pc.Writing? || pc.Written? || pc.Cleanup?
  }

  predicate Enabled(s: State, target: Name, w: nat, a: Action) {
    w < |s.writers| &&
    var x := s.writers[w];
    match a
    case Open(tmp, inode) => x.pc.Start? && tmp !in s.fs.names && inode !in s.fs.data && tmp != target
    case OpenError => x.pc.Start?
    case Write(upto) => x.pc.Writing? && x.pc.inode in s.fs.data && |s.fs.data[x.pc.inode]| <= upto <= |x.data|
    case Close => x.pc.Writing? && x.pc.inode in s.fs.data && s.fs.data[x.pc.inode] == x.data
    case Fail => x.pc.Writing?
    case Link => x.pc.Written? && x.pc.tmp in s.fs.names
    case LinkError => x.pc.Written?
    case Remove => x.pc.Cleanup?
    case RemoveError => x.pc.Cleanup?
    case Crash => x.pc.Start? || Live(x.pc)
  }

  function Apply(s: State, target: Name, w: nat, a: Action): (r: State)
    requires Enabled(s, target, w, a)
    ensures |r.writers| == |s.writers|
  {
    var x := s.writers[w];
    match a
    case Open(tmp, inode) => Moved(s, Create(s.fs, tmp, inode), w, Writing(tmp, inode))
    case OpenError => Moved(s, s.fs, w, NotOpened)
    case Write(upto) => Moved(s, WriteInode(s.fs, x.pc.inode, x.data[..upto]), w, x.pc)
    case Close => Moved(s, s.fs, w, Written(x.pc.tmp, x.pc.inode))
    case Fail => Moved(s, s.fs, w, Cleanup(x.pc.tmp, x.pc.inode, Failed))
    case Link =>
      if target in s.fs.names then Moved(s, s.fs, w, Cleanup(x.pc.tmp, x.pc.inode, Refused))
      else Moved(s, Point(s.fs, target, s.fs.names[x.pc.tmp]), w, Cleanup(x.pc.tmp, x.pc.inode, Published)).(winner := w)
    case LinkError => Moved(s, s.fs, w, Cleanup(x.pc.tmp, x.pc.inode, Failed))
    case Remove => Moved(s, Unlink(s.fs, x.pc.tmp), w, Finished(x.pc.tmp, x.pc.outcome))
    case RemoveError => Moved(s, s.fs, w, LeftBehind(x.pc.tmp, x.pc.outcome))
    case Crash => Moved(s, s.fs, w, if Live(x.pc) then CrashedWith(x.pc.tmp) else Crashed)
  }

  function Moved(s: State, fs: Fs, w: nat, pc: Pc): (r: State)
    requires w < |s.writers|
    ensures |r.writers| == |s.writers|
  {
    State(fs, s.writers[w := s.writers[w].(pc := pc)], s.winner)
  }

  /** Any filesystem, any number of writers with any data, none of them started. */
  ghost predicate Init(s: State) {
    Consistent(s.fs) && s.winner == NOBODY && forall w | 0 <= w < |s.writers| :: s.writers[w].pc.Start?
  }

  // ---------------------------------------------------------------- invariant

  /** Each live writer's name is its own, points to its own inode, and holds what it has written. */
  ghost predicate OwnTemp(s: State, target: Name, w: nat)
    requires w < |s.writers|
  {
    var x := s.writers[w];
    Live(x.pc) ==>
      && x.pc.tmp != target && x.pc.tmp in s.fs.names && s.fs.names[x.pc.tmp] == x.pc.inode
      && x.pc.inode in s.fs.data && s.fs.data[x.pc.inode] <= x.data
      && (!x.pc.Writing? && (x.pc.Cleanup? ==> x.pc.outcome != Failed) ==> s.fs.data[x.pc.inode] == x.data)
  }

  /** An inode being written is nobody else's, and not the target's. */
  ghost predicate Private(s: State, target: Name) {
    forall w, n | 0 <= w < |s.writers| && Live(s.writers[w].pc) && n in s.fs.names && s.fs.names[n] == s.writers[w].pc.inode ::
      n == s.writers[w].pc.tmp || (n == target && s.winner == w)
  }

  /** A writer that still accounts for a temporary name: live, crashed, or unable to remove it. */
  predicate Holder(pc: Pc) {
    Live(pc) || pc.CrashedWith? || pc.LeftBehind?
  }

  /** Names that are accounted for exist, were not there before, and differ. */
  ghost predicate DistinctTemps(s0: State, s: State, target: Name) {
    && (forall w | 0 <= w < |s.writers| && Holder(s.writers[w].pc) ::
          s.writers[w].pc.tmp in s.fs.names && s.writers[w].pc.tmp !in s0.fs.names && s.writers[w].pc.tmp != target)
    && (forall v, w | 0 <= v < w < |s.writers| && Holder(s.writers[v].pc) && Holder(s.writers[w].pc) ::
          s.writers[v].pc.tmp != s.writers[w].pc.tmp)
  }

  /** The target is as it was, or it is the winner's and complete. */
  ghost predicate TargetWhole(s0: State, s: State, target: Name) {
    if target in s0.fs.names then
      && s.winner == NOBODY && target in s.fs.names && s.fs.names[target] == s0.fs.names[target]
      && s0.fs.names[target] in s0.fs.data && s0.fs.names[target] in s.fs.data
      && Content(s.fs, target) == Content(s0.fs, target)
    else
      && (target in s.fs.names <==> s.winner != NOBODY)
      && (s.winner != NOBODY ==>
            && 0 <= s.winner < |s.writers| && s.fs.names[target] in s.fs.data
            && Content(s.fs, target) == s.writers[s.winner].data)
  }

  predicate Decided(pc: Pc) {
    pc.Cleanup? || pc.Finished? || pc.LeftBehind?
  }

  predicate Won(pc: Pc) {
    Decided(pc) && pc.outcome == Published
  }

  ghost predicate Outcomes(s: State, target: Name) {
    && (forall w | 0 <= w < |s.writers| && Won(s.writers[w].pc) :: s.winner == w)
    && (s.winner == NOBODY || (0 <= s.winner < |s.writers| && (Won(s.writers[s.winner].pc) || s.writers[s.winner].pc.CrashedWith?)))
    && (forall w | 0 <= w < |s.writers| && Decided(s.writers[w].pc) && s.writers[w].pc.outcome == Refused ::
          target in s.fs.names)
  }

  predicate Holds(s: State, w: nat, n: Name)
    requires w < |s.writers|
  {
    Holder(s.writers[w].pc) && s.writers[w].pc.tmp == n
  }

  /** No name appears or disappears except the target and the temporaries that are accounted for. */
  ghost predicate Tidy(s0: State, s: State, target: Name) {
    && (forall n | n in s0.fs.names :: n in s.fs.names)
    && (forall n | n in s.fs.names && n !in s0.fs.names && n != target :: exists w :: 0 <= w < |s.writers| && Holds(s, w, n))
  }

  ghost predicate Inv(s0: State, s: State, target: Name) {
    && |s.writers| == |s0.writers|
    && (forall w | 0 <= w < |s.writers| :: s.writers[w].data == s0.writers[w].data)
    && Consistent(s.fs)
    && (forall w | 0 <= w < |s.writers| :: OwnTemp(s, target, w))
    && Private(s, target) && DistinctTemps(s0, s, target)
    && TargetWhole(s0, s, target) && Outcomes(s, target) && Tidy(s0, s, target)
  }

  lemma InitHolds(s: State, target: Name)
    requires Init(s)
    ensures Inv(s, s, target)
  {
  }

  lemma StepTidy(s0: State, s: State, target: Name, w: nat, a: Action)
    requires Inv(s0, s, target) && Enabled(s, target, w, a)
    ensures Tidy(s0, Apply(s, target, w, a), target)
  {
    var r := Apply(s, target, w, a);
    assert OwnTemp(s, target, w);
    forall n | n in r.fs.names && n !in s0.fs.names && n != target
      ensures exists v :: 0 <= v < |r.writers| && Holds(r, v, n)
    {
      if n in s.fs.names {
        var v :| 0 <= v < |s.writers| && Holds(s, v, n);
        assert Holds(r, v, n);
      } else {
        assert Holds(r, w, n);
      }
    }
  }

  lemma OpenTemps(s0: State, s: State, target: Name, w: nat, a: Action)
    requires Inv(s0, s, target) && Enabled(s, target, w, a) && a.Open?
    ensures DistinctTemps(s0, Apply(s, target, w, a), target)
  {
    assert forall n | n in s0.fs.names :: n in s.fs.names;
    hide Tidy, OwnTemp, Private, TargetWhole, Outcomes;
  }

  /** A step other than creation makes no new holder and only `Remove` drops a name: its holder's. */
  lemma KeptTemps(s0: State, s: State, target: Name, w: nat, a: Action)
    requires Inv(s0, s, target) && Enabled(s, target, w, a) && !a.Open?
    ensures DistinctTemps(s0, Apply(s, target, w, a), target)
  {
    hide Tidy, OwnTemp, Private, TargetWhole, Outcomes;
    var r := Apply(s, target, w, a);
    assert forall v | 0 <= v < |r.writers| && Holder(r.writers[v].pc) ::
        Holder(s.writers[v].pc) && r.writers[v].pc.tmp == s.writers[v].pc.tmp;
    assert forall n | n in s.fs.names :: n in r.fs.names || (!Holder(r.writers[w].pc) && n == s.writers[w].pc.tmp);
    hide Apply, Enabled;
  }

  /** Every step of every writer keeps the invariant. */
  lemma StepHolds(s0: State, s: State, target: Name, w: nat, a: Action)
    requires Inv(s0, s, target) && Enabled(s, target, w, a)
    ensures Inv(s0, Apply(s, target, w, a), target)
  {
    hide Tidy, OwnTemp, Private, DistinctTemps, TargetWhole, Outcomes;
    StepTidy(s0, s, target, w, a);
    if a.Open? { OpenTemps(s0, s, target, w, a); } else { KeptTemps(s0, s, target, w, a); }
    match a
    case Open(_, _) => OpenHolds(s0, s, target, w, a);
    case Write(_) => WriteHolds(s0, s, target, w, a);
    case Link => LinkHolds(s0, s, target, w);
    case Remove => RemoveHolds(s0, s, target, w);
    case _ => QuietHolds(s0, s, target, w, a);
  }

  /** The part of the invariant that is about one state. */
  ghost predicate Core(s0: State, s: State, target: Name) {
    && Consistent(s.fs) && (forall v | 0 <= v < |s.writers| :: OwnTemp(s, target, v))
    && Private(s, target) && TargetWhole(s0, s, target) && Outcomes(s, target)
  }

  /** Steps that leave the filesystem alone. */
  lemma QuietHolds(s0: State, s: State, target: Name, w: nat, a: Action)
    requires Inv(s0, s, target) && Enabled(s, target, w, a) && !a.Open? && !a.Write? && !a.Link? && !a.Remove?
    ensures Core(s0, Apply(s, target, w, a), target)
  {
    hide Tidy, DistinctTemps;
    var r := Apply(s, target, w, a);
    assert OwnTemp(s, target, w);
    forall v | 0 <= v < |r.writers|
      ensures OwnTemp(r, target, v)
    {
      assert OwnTemp(s, target, v);
    }
  }

  lemma LinkHolds(s0: State, s: State, target: Name, w: nat)
    requires Inv(s0, s, target) && Enabled(s, target, w, Link)
    ensures Core(s0, Apply(s, target, w, Link), target)
  {
    hide Tidy;
    var r := Apply(s, target, w, Link);
    assert OwnTemp(s, target, w);
    forall v | 0 <= v < |r.writers|
      ensures OwnTemp(r, target, v)
    {
      assert OwnTemp(s, target, v);
    }
    assert Private(r, target);
    assert TargetWhole(s0, r, target);
  }

  lemma RemoveHolds(s0: State, s: State, target: Name, w: nat)
    requires Inv(s0, s, target) && Enabled(s, target, w, Remove)
    ensures Core(s0, Apply(s, target, w, Remove), target)
  {
    hide Tidy;
    var r := Apply(s, target, w, Remove);
    assert OwnTemp(s, target, w);
    forall v | 0 <= v < |r.writers|
      ensures OwnTemp(r, target, v)
    {
      assert OwnTemp(s, target, v);
    }
  }

  lemma WriteHolds(s0: State, s: State, target: Name, w: nat, a: Action)
    requires Inv(s0, s, target) && Enabled(s, target, w, a) && a.Write?
    ensures Core(s0, Apply(s, target, w, a), target)
  {
    hide Tidy;
    var r := Apply(s, target, w, a);
    assert OwnTemp(s, target, w);
    forall v | 0 <= v < |r.writers|
      ensures OwnTemp(r, target, v)
    {
      assert OwnTemp(s, target, v);
    }
  }

  lemma OpenHolds(s0: State, s: State, target: Name, w: nat, a: Action)
    requires Inv(s0, s, target) && Enabled(s, target, w, a) && a.Open?
    ensures Core(s0, Apply(s, target, w, a), target)
  {
    hide Tidy, DistinctTemps;
    var r := Apply(s, target, w, a);
    forall v | 0 <= v < |r.writers|
      ensures OwnTemp(r, target, v)
    {
      assert OwnTemp(s, target, v);
    }
    forall v, n | 0 <= v < |r.writers| && Live(r.writers[v].pc) && n in r.fs.names && r.fs.names[n] == r.writers[v].pc.inode
      ensures n == r.writers[v].pc.tmp || (n == target && r.winner == v)
    {
      assert OwnTemp(s, target, v);
    }
  }

  // ---------------------------------------------------------------- runs

  datatype Event = Event(writer: nat, action: Action)

  ghost predicate Feasible(s: State, target: Name, es: seq<Event>)
    decreases |es|
  {
    es != [] ==> Enabled(s, target, es[0].writer, es[0].action)
                 && Feasible(Apply(s, target, es[0].writer, es[0].action), target, es[1..])
  }

  ghost function After(s: State, target: Name, es: seq<Event>): State
    requires Feasible(s, target, es)
    decreases |es|
  {
    if es == [] then s else After(Apply(s, target, es[0].writer, es[0].action), target, es[1..])
  }

  lemma {:induction false} RunHolds(s0: State, s: State, target: Name, es: seq<Event>)
    requires Inv(s0, s, target) && Feasible(s, target, es)
    ensures Inv(s0, After(s, target, es), target)
    decreases |es|
  {
    hide Inv, Enabled, Apply;
    if es != [] {
      StepHolds(s0, s, target, es[0].writer, es[0].action);
      RunHolds(s0, Apply(s, target, es[0].writer, es[0].action), target, es[1..]);
    }
  }

  /** Safety of the published file: in every reachable state the target is absent, or it is the file
      that was there before, or it holds one writer's complete bytes. */
  lemma TargetIsWhole(s: State, target: Name, es: seq<Event>)
    requires Init(s) && Feasible(s, target, es)
    ensures var r := After(s, target, es);
            target in r.fs.names ==>
              && r.fs.names[target] in r.fs.data
              && (if target in s.fs.names then Content(r.fs, target) == Content(s.fs, target)
                  else 0 <= r.winner < |s.writers| && Content(r.fs, target) == s.writers[r.winner].data)
  {
    InitHolds(s, target);
    RunHolds(s, s, target, es);
  }

  lemma StepKeepsTarget(s0: State, s: State, target: Name, w: nat, a: Action)
    requires Inv(s0, s, target) && Enabled(s, target, w, a) && target in s.fs.names
    ensures var r := Apply(s, target, w, a);
            && target in r.fs.names && r.fs.names[target] in r.fs.data && s.fs.names[target] in s.fs.data
            && Content(r.fs, target) == Content(s.fs, target)
  {
    StepHolds(s0, s, target, w, a);
    assert OwnTemp(s, target, w);
  }

  /** Once present, the target never changes and never disappears. */
  lemma {:induction false} TargetIsFinal(s0: State, s: State, target: Name, es: seq<Event>)
    requires Inv(s0, s, target) && Feasible(s, target, es) && target in s.fs.names
    ensures var r := After(s, target, es);
            && target in r.fs.names && r.fs.names[target] in r.fs.data && s.fs.names[target] in s.fs.data
            && Content(r.fs, target) == Content(s.fs, target)
    decreases |es|
  {
    hide Inv, Enabled, Apply;
    assert s.fs.names[target] in s.fs.data by {
      KnownInode(s0, s, target);
    }
    if es != [] {
      StepHolds(s0, s, target, es[0].writer, es[0].action);
      StepKeepsTarget(s0, s, target, es[0].writer, es[0].action);
      TargetIsFinal(s0, Apply(s, target, es[0].writer, es[0].action), target, es[1..]);
    }
  }

  lemma KnownInode(s0: State, s: State, target: Name)
    requires Inv(s0, s, target) && target in s.fs.names
    ensures s.fs.names[target] in s.fs.data
  {
  }

  /** At most one writer succeeds, and only if the target was absent; a refused writer found it present. */
  lemma OneWinner(s: State, target: Name, es: seq<Event>, v: nat, w: nat)
    requires Init(s) && Feasible(s, target, es) && v < |s.writers| && w < |s.writers|
    ensures var r := After(s, target, es);
            && |r.writers| == |s.writers|
            && (Won(r.writers[v].pc) && Won(r.writers[w].pc) ==> v == w)
            && (Won(r.writers[v].pc) ==>
                  && target !in s.fs.names && target in r.fs.names && r.fs.names[target] in r.fs.data
                  && Content(r.fs, target) == s.writers[v].data)
            && (r.writers[v].pc.Finished? && r.writers[v].pc.outcome == Refused ==> target in r.fs.names)
  {
    InitHolds(s, target);
    RunHolds(s, s, target, es);
  }

  /** Cleanup: in every state the directory holds exactly what it held before, the target if someone
      won, and one temporary file for every writer that is live, crashed, or could not remove it. */
  lemma DirectoryExactly(s: State, target: Name, es: seq<Event>, n: Name)
    requires Init(s) && Feasible(s, target, es)
    ensures var r := After(s, target, es);
            n in r.fs.names <==>
              || n in s.fs.names
              || (n == target && r.winner != NOBODY)
              || exists w :: 0 <= w < |r.writers| && Holds(r, w, n)
  {
    InitHolds(s, target);
    RunHolds(s, s, target, es);
  }

  /** When every writer has ended without a crash or a failing unlink, no temporary file is left. */
  lemma NothingLeftBehind(s: State, target: Name, es: seq<Event>)
    requires Init(s) && Feasible(s, target, es)
    requires forall w | 0 <= w < |After(s, target, es).writers| ::
               var pc := After(s, target, es).writers[w].pc; pc.Finished? || pc.NotOpened?
    ensures var r := After(s, target, es);
            r.fs.names.Keys == s.fs.names.Keys + (if r.winner == NOBODY then {} else {target})
  {
    var r := After(s, target, es);
    forall n
      ensures n in r.fs.names <==> n in s.fs.names || (n == target && r.winner != NOBODY)
    {
      DirectoryExactly(s, target, es, n);
    }
  }

  /** A temporary file that outlives the run belongs to a writer that crashed or whose unlink failed. */
  lemma LitterIsAccountedFor(s: State, target: Name, es: seq<Event>, n: Name)
    requires Init(s) && Feasible(s, target, es)
    requires forall w | 0 <= w < |After(s, target, es).writers| :: !Live(After(s, target, es).writers[w].pc)
    requires n in After(s, target, es).fs.names && n !in s.fs.names && n != target
    ensures exists w :: 0 <= w < |After(s, target, es).writers|
                        && var pc := After(s, target, es).writers[w].pc; (pc.CrashedWith? || pc.LeftBehind?) && pc.tmp == n
  {
    DirectoryExactly(s, target, es, n);
    var r := After(s, target, es);
    var w :| 0 <= w < |r.writers| && Holds(r, w, n);
    assert (r.writers[w].pc.CrashedWith? || r.writers[w].pc.LeftBehind?) && r.writers[w].pc.tmp == n;
  }

  // ---------------------------------------------------------------- what a writer can achieve

  /** A writer that links first wins: the target appears and holds exactly its bytes. A writer that
      finds the target present leaves it alone and is refused. */
  lemma LinkDecides(s0: State, s: State, target: Name, w: nat)
    requires Inv(s0, s, target) && Enabled(s, target, w, Link)
    ensures var r := Apply(s, target, w, Link);
            && target in r.fs.names && r.fs.names[target] in r.fs.data && Decided(r.writers[w].pc)
            && (target !in s.fs.names ==>
                  && r.winner == w && r.writers[w].pc.outcome == Published && Content(r.fs, target) == s.writers[w].data)
            && (target in s.fs.names ==>
                  && r.winner == s.winner && r.writers[w].pc.outcome == Refused && r.fs == s.fs)
  {
    assert OwnTemp(s, target, w);
  }

  /** From every initial state, with a fresh name, any writer with any data gets to its end: it publishes
      exactly its data if the target is absent, it is refused if the target is present, and it leaves no
      temporary name behind. */
  lemma AloneSucceeds(s: State, target: Name, w: nat, tmp: Name, inode: nat)
    requires Init(s) && w < |s.writers| && tmp !in s.fs.names && inode !in s.fs.data && tmp != target
    ensures var es := Run(w, [Open(tmp, inode), Write(|s.writers[w].data|), Close, Link, Remove]);
            && Feasible(s, target, es)
            && var r := After(s, target, es);
            && |r.writers| == |s.writers| && tmp !in r.fs.names && target in r.fs.names && r.fs.names[target] in r.fs.data
            && (target !in s.fs.names ==>
                  r.writers[w].pc == Finished(tmp, Published) && Content(r.fs, target) == s.writers[w].data)
            && (target in s.fs.names ==>
                  r.writers[w].pc == Finished(tmp, Refused) && s.fs.names[target] in s.fs.data
                  && Content(r.fs, target) == Content(s.fs, target))
  {
    var data := s.writers[w].data;
    var s1 := Apply(s, target, w, Open(tmp, inode));
    var s2 := Apply(s1, target, w, Write(|data|));
    assert data[..|data|] == data;
    var s3 := Apply(s2, target, w, Close);
    var s4 := Apply(s3, target, w, Link);
    var s5 := Apply(s4, target, w, Remove);
    Steps(s, target, w, [Open(tmp, inode), Write(|data|), Close, Link, Remove], [s, s1, s2, s3, s4, s5]);
  }

  /** Wherever a call fails, the cleanup still removes the temporary name and leaves the target alone. */
  lemma FailureCleansUp(s0: State, s: State, target: Name, w: nat, a: Action)
    requires Inv(s0, s, target) && (a == Fail || a == LinkError) && Enabled(s, target, w, a)
    ensures Feasible(s, target, Run(w, [a, Remove]))
    ensures var r := After(s, target, Run(w, [a, Remove]));
            && |r.writers| == |s.writers| && r.writers[w].pc == Finished(s.writers[w].pc.tmp, Failed)
            && r.fs.names == s.fs.names - {s.writers[w].pc.tmp} && r.fs.data == s.fs.data && r.winner == s.winner
  {
    var s1 := Apply(s, target, w, a);
    var s2 := Apply(s1, target, w, Remove);
    Steps(s, target, w, [a, Remove], [s, s1, s2]);
  }

  /** No writer ever waits for another: its next call is always possible. */
  lemma NobodyWaits(s0: State, s: State, target: Name, w: nat)
    requires Inv(s0, s, target) && w < |s.writers|
    ensures s.writers[w].pc.Start? ==>
        forall tmp, inode | tmp !in s.fs.names && inode !in s.fs.data && tmp != target :: Enabled(s, target, w, Open(tmp, inode))
    ensures s.writers[w].pc.Writing? ==>
        var full := Write(|s.writers[w].data|);
        Enabled(s, target, w, full) && Enabled(Apply(s, target, w, full), target, w, Close)
    ensures s.writers[w].pc.Writing? ==>
        && s.writers[w].pc.inode in s.fs.data
        && forall upto | |s.fs.data[s.writers[w].pc.inode]| <= upto <= |s.writers[w].data| ::
             && Enabled(s, target, w, Write(upto))
             && Apply(s, target, w, Write(upto)).fs.data == s.fs.data[s.writers[w].pc.inode := s.writers[w].data[..upto]]
    ensures s.writers[w].pc.Written? ==> Enabled(s, target, w, Link)
    ensures s.writers[w].pc.Cleanup? ==> Enabled(s, target, w, Remove)
  {
    assert OwnTemp(s, target, w);
    assert s.writers[w].data[..|s.writers[w].data|] == s.writers[w].data;
  }

  /** Every call can fail, and a writer can crash wherever it is. */
  lemma AnythingCanFail(s: State, target: Name, w: nat)
    requires w < |s.writers|
    ensures s.writers[w].pc.Start? ==> Enabled(s, target, w, OpenError) && Apply(s, target, w, OpenError) == Moved(s, s.fs, w, NotOpened)
    ensures s.writers[w].pc.Writing? ==> Enabled(s, target, w, Fail)
    ensures s.writers[w].pc.Written? ==> Enabled(s, target, w, LinkError)
    ensures s.writers[w].pc.Cleanup? ==> 
        && Enabled(s, target, w, RemoveError)
        && Apply(s, target, w, RemoveError) == Moved(s, s.fs, w, LeftBehind(s.writers[w].pc.tmp, s.writers[w].pc.outcome))
    ensures s.writers[w].pc.Start? || s.writers[w].pc.Writing? || s.writers[w].pc.Written? || s.writers[w].pc.Cleanup? ==>
        && Enabled(s, target, w, Crash)
        && Apply(s, target, w, Crash)
           == Moved(s, s.fs, w, if s.writers[w].pc.Start? then Crashed else CrashedWith(s.writers[w].pc.tmp))
  {
  }

  /** The actions of one writer as events. */
  function Run(w: nat, actions: seq<Action>): (r: seq<Event>)
    ensures |r| == |actions|
  {
    seq(|actions|, i requires 0 <= i < |actions| => Event(w, actions[i]))
  }

  /** States that follow each other by the actions of one writer make a run. */
  lemma {:induction false} Steps(s: State, target: Name, w: nat, actions: seq<Action>, states: seq<State>)
    requires |states| == |actions| + 1 && states[0] == s
    requires forall i | 0 <= i < |actions| ::
        Enabled(states[i], target, w, actions[i]) && states[i + 1] == Apply(states[i], target, w, actions[i])
    ensures Feasible(s, target, Run(w, actions)) && After(s, target, Run(w, actions)) == states[|actions|]
    decreases |actions|
  {
    hide Enabled, Apply;
    if actions != [] {
      forall i | 0 <= i < |actions[1..]|
        ensures Enabled(states[1..][i], target, w, actions[1..][i])
        ensures states[1..][i + 1] == Apply(states[1..][i], target, w, actions[1..][i])
      {
        assert states[1..][i] == states[i + 1] && states[1..][i + 1] == states[i + 2] && actions[1..][i] == actions[i + 1];
      }
      Steps(states[1], target, w, actions[1..], states[1..]);
      assert Run(w, actions)[1..] == Run(w, actions[1..]);
    }
  }
}
