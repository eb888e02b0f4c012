/** `save_reference`: write a temporary file, rename it over the target, and remove the temporary file
    if its name still exists. Any number of writers, any interleaving, crashes anywhere. */
module Checkpoint {
  import opened FileSystem

  datatype Outcome = Replaced | Failed

  /** Where a writer is. From creation until it ends, a writer remembers its temporary name. */
  datatype Pc =
    | Start
    | Writing(tmp: Name, inode: nat)
    | Written(tmp: Name, inode: nat)
    | Looking(tmp: Name, outcome: Outcome)     // finally: os.path.exists(tmp)
    | Removing(tmp: Name, outcome: Outcome)    // it existed: os.unlink(tmp)
    | Finished(tmp: Name, outcome: Outcome)
    | NotOpened                                // no temporary file was ever created
    | LeftBehind(tmp: Name, outcome: Outcome)  // ended without removing the name
    | Crashed
    | CrashedWith(tmp: Name)

  datatype Writer = Writer(data: Bytes, pc: Pc)

  /** `owner` records which writer created each inode, `version` who replaced the target last. */
  datatype State = State(fs: Fs, writers: seq<Writer>, owner: map<nat, nat>, version: int)

  const INITIAL := -1

  datatype Action =
    | Open(tmp: Name, inode: nat)  // mkstemp: exclusive creation
    | OpenError                    // creating the directory or the file fails
    | Write(upto: nat)
    | Close
    | Fail                         // anything between creation and the replacement raises
    | Replace                      // os.replace(tmp, path)
    | ReplaceError                 // os.replace fails although the file is there
    | Look                         // os.path.exists(tmp)
    | Overlook                     // it answers False because the lookup failed
    | Remove                       // os.unlink(tmp), which raises when the name is gone
    | RemoveError                  // os.unlink fails and the name stays
    | Crash

  predicate Filling(pc: Pc) {
    pc.Writing? || pc.Written?
  }

  predicate Live(pc: Pc) {
    Filling(pc) || pc.Looking? || pc.Removing?
  }

  predicate Enabled(s: State, target: Name, w: nat, a: Action) {
    w < |s.writers| &&
    var x := s.writers[w];
    match a
    case Open(tmp, inode) => x.pc.Start? && tmp !in s.fs.names && inode !in s.fs.data && tmp != target
    case OpenError => x.pc.Start?
    case Write(upto) => x.pc.Writing? && x.pc.inode in s.fs.data && |s.fs.data[x.pc.inode]| <= upto <= |x.data|
    case Close => x.pc.Writing? && x.pc.inode in s.fs.data && s.fs.data[x.pc.inode] == x.data
    case Fail => Filling(x.pc)
    case Replace => x.pc.Written?
    case ReplaceError => x.pc.Written?
    case Look => x.pc.Looking?
    case Overlook => x.pc.Looking?
    case Remove => x.pc.Removing?
    case RemoveError => x.pc.Removing?
    case Crash => x.pc.Start? || Live(x.pc)
  }

  function Moved(s: State, fs: Fs, w: nat, pc: Pc): (r: State)
    requires w < |s.writers|
    ensures |r.writers| == |s.writers|
  {
    s.(fs := fs, writers := s.writers[w := s.writers[w].(pc := pc)])
  }

  function Apply(s: State, target: Name, w: nat, a: Action): (r: State)
    requires Enabled(s, target, w, a)
    ensures |r.writers| == |s.writers|
  {
    var x := s.writers[w];
    match a
    case Open(tmp, inode) => Moved(s, Create(s.fs, tmp, inode), w, Writing(tmp, inode)).(owner := s.owner[inode := w])
    case OpenError => Moved(s, s.fs, w, NotOpened)
    case Write(upto) => Moved(s, WriteInode(s.fs, x.pc.inode, x.data[..upto]), w, x.pc)
    case Close => Moved(s, s.fs, w, Written(x.pc.tmp, x.pc.inode))
    case Fail => Moved(s, s.fs, w, Looking(x.pc.tmp, Failed))
    case Replace =>
      if x.pc.tmp in s.fs.names
      then Moved(s, Rename(s.fs, x.pc.tmp, target), w, Looking(x.pc.tmp, Replaced)).(version := w)
      else Moved(s, s.fs, w, Looking(x.pc.tmp, Failed))
    case ReplaceError => Moved(s, s.fs, w, Looking(x.pc.tmp, Failed))
    case Look =>
      if x.pc.tmp in s.fs.names then Moved(s, s.fs, w, Removing(x.pc.tmp, x.pc.outcome))
      else Moved(s, s.fs, w, Finished(x.pc.tmp, x.pc.outcome))
    case Overlook => Moved(s, s.fs, w, LeftBehind(x.pc.tmp, x.pc.outcome))
    case Remove =>
      Moved(s, Unlink(s.fs, x.pc.tmp), w, Finished(x.pc.tmp, if x.pc.tmp in s.fs.names then x.pc.outcome else Failed))
    case RemoveError => Moved(s, s.fs, w, LeftBehind(x.pc.tmp, Failed))
    case Crash => Moved(s, s.fs, w, if Live(x.pc) then CrashedWith(x.pc.tmp) else Crashed)
  }

  /** Any filesystem, any number of writers with any data, none of them started. */
  ghost predicate Init(s: State) {
    && Consistent(s.fs) && s.owner == map[] && s.version == INITIAL
    && forall w | 0 <= w < |s.writers| :: s.writers[w].pc.Start?
  }

  // ---------------------------------------------------------------- what every step keeps

  /** Earlier files are untouched; a file of this protocol holds a prefix of its creator's bytes. */
  ghost predicate Files(s0: State, s: State) {
    && Consistent(s.fs)
    && (forall i | i in s0.fs.data :: i in s.fs.data && s.fs.data[i] == s0.fs.data[i] && i !in s.owner)
    && (forall i | i in s.owner ::
          i in s.fs.data && s.owner[i] < |s.writers| && s.fs.data[i] <= s.writers[s.owner[i]].data)
  }

  /** A writer's handle is on a file it created itself, and its name is not one that was there before. */
  ghost predicate Handle(s0: State, s: State, target: Name, w: nat)
    requires w < |s.writers|
  {
    var x := s.writers[w];
    && (Live(x.pc) ==> x.pc.tmp != target && x.pc.tmp !in s0.fs.names)
    && (Filling(x.pc) ==> x.pc.inode in s.owner && s.owner[x.pc.inode] == w && x.pc.inode in s.fs.data)
    && (x.pc.Written? ==> s.fs.data[x.pc.inode] == x.data)
  }

  /** Every name but the target that was there before still names the same file; the other names, and
      the target once it is replaced, name files of this protocol. */
  ghost predicate Directory(s0: State, s: State, target: Name) {
    && (forall n | n in s0.fs.names :: n in s.fs.names)
    && (forall n | n in s.fs.names ::
          if n in s0.fs.names && (n != target || s.version == INITIAL) then s.fs.names[n] == s0.fs.names[n]
          else s.fs.names[n] in s.owner)
    && (target in s.fs.names <==> target in s0.fs.names || s.version != INITIAL)
  }

  /** Writer `w` accounts for the temporary name `n`: it is live, it crashed, or it could not remove it. */
  predicate Holds(s: State, w: nat, n: Name)
    requires w < |s.writers|
  {
    var pc := s.writers[w].pc;
    (Live(pc) || pc.CrashedWith? || pc.LeftBehind?) && pc.tmp == n
  }

  ghost predicate Held(s0: State, s: State, target: Name) {
    forall n | n in s.fs.names && n !in s0.fs.names && n != target :: exists w :: 0 <= w < |s.writers| && Holds(s, w, n)
  }

  ghost predicate Inv(s0: State, s: State, target: Name) {
    && |s.writers| == |s0.writers| && INITIAL <= s.version
    && (forall w | 0 <= w < |s.writers| :: s.writers[w].data == s0.writers[w].data)
    && (forall w | 0 <= w < |s.writers| :: Handle(s0, s, target, w))
    && Consistent(s0.fs) && Files(s0, s) && Directory(s0, s, target) && Held(s0, s, target)
  }

  lemma InitHolds(s: State, target: Name)
    requires Init(s)
    ensures Inv(s, s, target)
  {
  }

  lemma StepHeld(s0: State, s: State, target: Name, w: nat, a: Action)
    requires Inv(s0, s, target) && Enabled(s, target, w, a)
    ensures Held(s0, Apply(s, target, w, a), target)
  {
    hide Files;
    var r := Apply(s, target, w, a);
    assert Handle(s0, s, target, w);
    forall n | n in r.fs.names && n !in s0.fs.names && n != target
      ensures exists v :: 0 <= v < |r.writers| && Holds(r, v, n)
    {
      if n in s.fs.names {
        var v :| 0 <= v < |s.writers| && Holds(s, v, n);
        assert Holds(r, v, n);
      } else {
        assert Holds(r, w, n);
      }
    }
  }

  lemma StepOwnHandle(s0: State, s: State, target: Name, w: nat, a: Action)
    requires Inv(s0, s, target) && Enabled(s, target, w, a)
    ensures Handle(s0, Apply(s, target, w, a), target, w)
  {
    hide Held, Files;
    assert Handle(s0, s, target, w);
  }

  lemma StepOtherHandle(s0: State, s: State, target: Name, w: nat, a: Action, v: nat)
    requires Inv(s0, s, target) && Enabled(s, target, w, a) && v < |s.writers| && v != w
    ensures Handle(s0, Apply(s, target, w, a), target, v)
  {
    hide Held, Files, Directory;
    assert Handle(s0, s, target, w) && Handle(s0, s, target, v);
  }

  lemma StepHandles(s0: State, s: State, target: Name, w: nat, a: Action)
    requires Inv(s0, s, target) && Enabled(s, target, w, a)
    ensures forall v | 0 <= v < |s.writers| :: Handle(s0, Apply(s, target, w, a), target, v)
  {
    hide Inv, Enabled, Apply, Handle;
    forall v | 0 <= v < |s.writers|
      ensures Handle(s0, Apply(s, target, w, a), target, v)
    {
      if v == w { StepOwnHandle(s0, s, target, w, a); } else { StepOtherHandle(s0, s, target, w, a, v); }
    }
  }

  lemma StepFiles(s0: State, s: State, target: Name, w: nat, a: Action)
    requires Inv(s0, s, target) && Enabled(s, target, w, a)
    ensures Files(s0, Apply(s, target, w, a))
  {
    hide Held, Directory;
    assert Handle(s0, s, target, w);
    if a.Open? || a.Write? {
      StepBytes(s0, s, target, w, a);
    }
  }

  lemma StepBytes(s0: State, s: State, target: Name, w: nat, a: Action)
    requires Inv(s0, s, target) && Enabled(s, target, w, a) && (a.Open? || a.Write?)
    ensures Files(s0, Apply(s, target, w, a))
  {
    hide Held, Directory;
    assert Handle(s0, s, target, w);
  }

  lemma StepDirectory(s0: State, s: State, target: Name, w: nat, a: Action)
    requires Inv(s0, s, target) && Enabled(s, target, w, a)
    ensures Directory(s0, Apply(s, target, w, a), target)
  {
    hide Held, Files;
    assert Handle(s0, s, target, w);
  }

  lemma StepRoster(s0: State, s: State, target: Name, w: nat, a: Action)
    requires Inv(s0, s, target) && Enabled(s, target, w, a)
    ensures var r := Apply(s, target, w, a);
            && |r.writers| == |s0.writers| && INITIAL <= r.version
            && forall v | 0 <= v < |r.writers| :: r.writers[v].data == s0.writers[v].data
  {
    hide Held, Handle, Files, Directory;
  }

  /** Every step of every writer keeps the invariant, whatever names are handed out. */
  lemma StepHolds(s0: State, s: State, target: Name, w: nat, a: Action)
    requires Inv(s0, s, target) && Enabled(s, target, w, a)
    ensures w < |s.writers| && Inv(s0, Apply(s, target, w, a), target)
  {
    hide Held, Handle, Files, Directory;
    StepHeld(s0, s, target, w, a);
    StepHandles(s0, s, target, w, a);
    StepFiles(s0, s, target, w, a);
    StepDirectory(s0, s, target, w, a);
    StepRoster(s0, s, target, w, a);
  }

  // ---------------------------------------------------------------- runs

  datatype Event = Event(writer: nat, action: Action)

  ghost predicate Feasible(s: State, target: Name, es: seq<Event>)
    decreases |es|
  {
    es != [] ==> Enabled(s, target, es[0].writer, es[0].action)
                 && Feasible(Apply(s, target, es[0].writer, es[0].action), target, es[1..])
  }

  ghost function After(s: State, target: Name, es: seq<Event>): State
    requires Feasible(s, target, es)
    decreases |es|
  {
    if es == [] then s else After(Apply(s, target, es[0].writer, es[0].action), target, es[1..])
  }

  lemma {:induction false} RunHolds(s0: State, s: State, target: Name, es: seq<Event>)
    requires Inv(s0, s, target) && Feasible(s, target, es)
    ensures Inv(s0, After(s, target, es), target)
    decreases |es|
  {
    hide Inv, Enabled, Apply;
    if es != [] {
      StepHolds(s0, s, target, es[0].writer, es[0].action);
      RunHolds(s0, Apply(s, target, es[0].writer, es[0].action), target, es[1..]);
    }
  }

  /** With no assumption on names: the target never disappears, and it holds the initial file or a
      prefix of one writer's bytes. */
  lemma TargetIsPrefix(s: State, target: Name, es: seq<Event>)
    requires Init(s) && Feasible(s, target, es)
    ensures var r := After(s, target, es);
            && (target in s.fs.names ==> target in r.fs.names)
            && (target in r.fs.names ==>
                  && r.fs.names[target] in r.fs.data
                  && ((target in s.fs.names && s.fs.names[target] in s.fs.data && Content(r.fs, target) == Content(s.fs, target))
                      || exists w :: 0 <= w < |s.writers| && Content(r.fs, target) <= s.writers[w].data))
  {
    InitHolds(s, target);
    RunHolds(s, s, target, es);
  }

  /** When every writer has ended, and none failed to remove its name, only the target may have been
      added to the directory. */
  lemma NothingLeftBehind(s: State, target: Name, es: seq<Event>)
    requires Init(s) && Feasible(s, target, es)
    requires forall w | 0 <= w < |After(s, target, es).writers| ::
               var pc := After(s, target, es).writers[w].pc; pc.Finished? || pc.NotOpened?
    ensures var r := After(s, target, es);
            r.fs.names.Keys == s.fs.names.Keys + (if r.version == INITIAL then {} else {target})
  {
    InitHolds(s, target);
    RunHolds(s, s, target, es);
    hide Files, Handle, Feasible, After;
    var r := After(s, target, es);
    assert forall n | n in r.fs.names && n !in s.fs.names :: n == target;
  }

  /** A temporary file that outlives the run belongs to a writer that crashed or could not remove it. */
  lemma LitterIsAccountedFor(s: State, target: Name, es: seq<Event>, n: Name)
    requires Init(s) && Feasible(s, target, es)
    requires forall w | 0 <= w < |After(s, target, es).writers| :: !Live(After(s, target, es).writers[w].pc)
    requires n in After(s, target, es).fs.names && n !in s.fs.names && n != target
    ensures exists w :: 0 <= w < |After(s, target, es).writers|
                        && var pc := After(s, target, es).writers[w].pc; (pc.CrashedWith? || pc.LeftBehind?) && pc.tmp == n
  {
    InitHolds(s, target);
    RunHolds(s, s, target, es);
    var r := After(s, target, es);
    var w :| 0 <= w < |r.writers| && Holds(r, w, n);
    assert (r.writers[w].pc.CrashedWith? || r.writers[w].pc.LeftBehind?) && r.writers[w].pc.tmp == n;
  }

  // ---------------------------------------------------------------- when a reader sees one whole version

  /** The file holds everything its creator set out to write. */
  ghost predicate Complete(s: State, inode: nat) {
    inode in s.owner ==> inode in s.fs.data && s.owner[inode] < |s.writers| && s.fs.data[inode] == s.writers[s.owner[inode]].data
  }

  ghost predicate WholeTarget(s: State, target: Name) {
    target in s.fs.names ==> Complete(s, s.fs.names[target])
  }

  /** At the guard of the publishing step: a replacement that finds its temporary name finds a complete
      file there. */
  ghost predicate Guarded(s: State, w: nat, a: Action)
    requires w < |s.writers|
  {
    var pc := s.writers[w].pc;
    a.Replace? && pc.Written? && pc.tmp in s.fs.names ==> Complete(s, s.fs.names[pc.tmp])
  }

  ghost predicate AllGuarded(s: State, target: Name, es: seq<Event>)
    requires Feasible(s, target, es)
    decreases |es|
  {
    es != [] ==> Guarded(s, es[0].writer, es[0].action)
                 && AllGuarded(Apply(s, target, es[0].writer, es[0].action), target, es[1..])
  }

  ghost predicate AlwaysWhole(s: State, target: Name, es: seq<Event>)
    requires Feasible(s, target, es)
    decreases |es|
  {
    WholeTarget(s, target)
    && (es != [] ==> AlwaysWhole(Apply(s, target, es[0].writer, es[0].action), target, es[1..]))
  }

  /** A step leaves a whole target whole exactly when it is guarded. */
  lemma StepWhole(s0: State, s: State, target: Name, w: nat, a: Action)
    requires Inv(s0, s, target) && Enabled(s, target, w, a) && WholeTarget(s, target)
    ensures WholeTarget(Apply(s, target, w, a), target) <==> Guarded(s, w, a)
  {
    hide Held;
    assert Handle(s0, s, target, w);
  }

  /** In every run, the target is complete after every step if and only if every replacement that finds
      its temporary name finds a complete file there. */
  lemma {:induction false} WholeExactly(s0: State, s: State, target: Name, es: seq<Event>)
    requires Inv(s0, s, target) && WholeTarget(s, target) && Feasible(s, target, es)
    ensures AlwaysWhole(s, target, es) <==> AllGuarded(s, target, es)
    decreases |es|
  {
    hide Inv, Enabled, Apply, Guarded, WholeTarget;
    if es != [] {
      var r := Apply(s, target, es[0].writer, es[0].action);
      StepHolds(s0, s, target, es[0].writer, es[0].action);
      StepWhole(s0, s, target, es[0].writer, es[0].action);
      if Guarded(s, es[0].writer, es[0].action) {
        WholeExactly(s0, r, target, es[1..]);
      } else {
        assert !WholeTarget(r, target);
      }
    }
  }

  /** What a reader can tell: the target holds the bytes of the initial file or of one writer. */
  ghost predicate Seen(s0: State, s: State, target: Name) {
    target in s.fs.names ==>
      && s.fs.names[target] in s.fs.data
      && ((target in s0.fs.names && s0.fs.names[target] in s0.fs.data && Content(s.fs, target) == Content(s0.fs, target))
          || exists w :: 0 <= w < |s0.writers| && Content(s.fs, target) == s0.writers[w].data)
  }

  ghost predicate AlwaysSeen(s0: State, s: State, target: Name, es: seq<Event>)
    requires Feasible(s, target, es)
    decreases |es|
  {
    Seen(s0, s, target)
    && (es != [] ==> AlwaysSeen(s0, Apply(s, target, es[0].writer, es[0].action), target, es[1..]))
  }

  /** No document is a proper prefix of one that is being written, as for JSON objects. */
  ghost predicate SelfDelimiting(s: State, target: Name) {
    && (forall v, w | 0 <= v < |s.writers| && 0 <= w < |s.writers| && s.writers[v].data <= s.writers[w].data ::
          s.writers[v].data == s.writers[w].data)
    && (target in s.fs.names && s.fs.names[target] in s.fs.data ==>
          forall w | 0 <= w < |s.writers| && Content(s.fs, target) <= s.writers[w].data ::
            Content(s.fs, target) == s.writers[w].data)
  }

  lemma WholeIsSeen(s0: State, s: State, target: Name)
    requires Inv(s0, s, target)
    ensures WholeTarget(s, target) ==> Seen(s0, s, target)
    ensures SelfDelimiting(s0, target) && Seen(s0, s, target) ==> WholeTarget(s, target)
  {
    hide Held;
  }

  lemma {:induction false} AlwaysWholeIsSeen(s0: State, s: State, target: Name, es: seq<Event>)
    requires Inv(s0, s, target) && Feasible(s, target, es)
    ensures AlwaysWhole(s, target, es) ==> AlwaysSeen(s0, s, target, es)
    ensures SelfDelimiting(s0, target) && AlwaysSeen(s0, s, target, es) ==> AlwaysWhole(s, target, es)
    decreases |es|
  {
    hide Inv, Enabled, Apply, Seen, WholeTarget, SelfDelimiting;
    WholeIsSeen(s0, s, target);
    if es != [] {
      StepHolds(s0, s, target, es[0].writer, es[0].action);
      AlwaysWholeIsSeen(s0, Apply(s, target, es[0].writer, es[0].action), target, es[1..]);
    }
  }

  /** A reader sees one whole version after every step of a run if its replacements are guarded, and,
      for documents that are no prefixes of each other, only if they are. */
  lemma ReaderSeesWhole(s: State, target: Name, es: seq<Event>)
    requires Init(s) && Feasible(s, target, es)
    ensures AllGuarded(s, target, es) ==> AlwaysSeen(s, s, target, es)
    ensures SelfDelimiting(s, target) ==> (AlwaysSeen(s, s, target, es) <==> AllGuarded(s, target, es))
  {
    InitHolds(s, target);
    hide Inv;
    assert WholeTarget(s, target);
    WholeExactly(s, s, target, es);
    AlwaysWholeIsSeen(s, s, target, es);
  }

  // ---------------------------------------------------------------- two ways to be guarded

  /** A writer could compare `os.stat(tmp)` with its handle: the name is still its own file's. */
  ghost predicate OwnFile(s: State, w: nat, a: Action)
    requires w < |s.writers|
  {
    var pc := s.writers[w].pc;
    a.Replace? && pc.Written? && pc.tmp in s.fs.names ==> s.fs.names[pc.tmp] == pc.inode
  }

  ghost predicate AllOwn(s: State, target: Name, es: seq<Event>)
    requires Feasible(s, target, es)
    decreases |es|
  {
    es != [] ==> OwnFile(s, es[0].writer, es[0].action)
                 && AllOwn(Apply(s, target, es[0].writer, es[0].action), target, es[1..])
  }

  lemma OwnFileGuards(s0: State, s: State, target: Name, w: nat, a: Action)
    requires Inv(s0, s, target) && Enabled(s, target, w, a) && OwnFile(s, w, a)
    ensures Guarded(s, w, a)
  {
    assert Handle(s0, s, target, w);
  }

  lemma {:induction false} OwnIsGuarded(s0: State, s: State, target: Name, es: seq<Event>)
    requires Inv(s0, s, target) && Feasible(s, target, es) && AllOwn(s, target, es)
    ensures AllGuarded(s, target, es)
    decreases |es|
  {
    hide Inv, Enabled, Apply, Guarded, OwnFile;
    if es != [] {
      OwnFileGuards(s0, s, target, es[0].writer, es[0].action);
      StepHolds(s0, s, target, es[0].writer, es[0].action);
      OwnIsGuarded(s0, Apply(s, target, es[0].writer, es[0].action), target, es[1..]);
    }
  }

  /** The naming discipline: a new temporary name is not one that a live writer still remembers. */
  predicate Disciplined(s: State, a: Action) {
    a.Open? ==> forall v | 0 <= v < |s.writers| && Live(s.writers[v].pc) :: s.writers[v].pc.tmp != a.tmp
  }

  ghost predicate AllDisciplined(s: State, target: Name, es: seq<Event>)
    requires Feasible(s, target, es)
    decreases |es|
  {
    es != [] ==> Disciplined(s, es[0].action)
                 && AllDisciplined(Apply(s, target, es[0].writer, es[0].action), target, es[1..])
  }

  /** What the discipline keeps: live names differ, and a file being filled keeps its name. */
  ghost predicate Apart(s: State) {
    && (forall v, w | 0 <= v < w < |s.writers| && Live(s.writers[v].pc) && Live(s.writers[w].pc) ::
          s.writers[v].pc.tmp != s.writers[w].pc.tmp)
    && (forall w | 0 <= w < |s.writers| && Filling(s.writers[w].pc) ::
          s.writers[w].pc.tmp in s.fs.names && s.fs.names[s.writers[w].pc.tmp] == s.writers[w].pc.inode)
  }

  lemma StepApart(s0: State, s: State, target: Name, w: nat, a: Action)
    requires Inv(s0, s, target) && Enabled(s, target, w, a) && Apart(s) && Disciplined(s, a)
    ensures Apart(Apply(s, target, w, a)) && OwnFile(s, w, a)
  {
    hide Held, Files, Directory;
    var r := Apply(s, target, w, a);
    forall v | 0 <= v < |r.writers| && Filling(r.writers[v].pc)
      ensures r.writers[v].pc.tmp in r.fs.names && r.fs.names[r.writers[v].pc.tmp] == r.writers[v].pc.inode
    {
      assert Handle(s0, s, target, v);
    }
  }

  lemma {:induction false} DisciplinedIsOwn(s0: State, s: State, target: Name, es: seq<Event>)
    requires Inv(s0, s, target) && Apart(s) && Feasible(s, target, es) && AllDisciplined(s, target, es)
    ensures AllOwn(s, target, es)
    decreases |es|
  {
    hide Inv, Enabled, Apply, Apart, OwnFile, Disciplined;
    if es != [] {
      StepApart(s0, s, target, es[0].writer, es[0].action);
      StepHolds(s0, s, target, es[0].writer, es[0].action);
      DisciplinedIsOwn(s0, Apply(s, target, es[0].writer, es[0].action), target, es[1..]);
    }
  }

  /** Under the naming discipline every replacement publishes the replacer's own file, so a reader always
      sees one whole version. */
  lemma DisciplineSuffices(s: State, target: Name, es: seq<Event>)
    requires Init(s) && Feasible(s, target, es) && AllDisciplined(s, target, es)
    ensures AllOwn(s, target, es) && AllGuarded(s, target, es) && AlwaysSeen(s, s, target, es)
  {
    InitHolds(s, target);
    DisciplinedIsOwn(s, s, target, es);
    OwnIsGuarded(s, s, target, es);
    ReaderSeesWhole(s, target, es);
  }

  // ---------------------------------------------------------------- a run that is not guarded

  /** Three writers with one-byte checkpoints and an empty directory. */
  function Three(): State {
    State(Fs(map[], map[]), [Writer([1], Start), Writer([2], Start), Writer([3], Start)], map[], INITIAL)
  }

  /** Writer 0 replaces the target; writer 1 reuses its temporary name before writer 0 looks; writer 0
      removes the file of writer 1; writer 2 reuses the name again; writer 1 publishes writer 2's
      still empty file. */
  function TornRun(): (es: seq<Event>)
    ensures |es| == 11
  {
    [Event(0, Open("t", 0)), Event(0, Write(1)), Event(0, Close), Event(0, Replace),
     Event(1, Open("t", 1)), Event(0, Look), Event(0, Remove),
     Event(1, Write(1)), Event(1, Close), Event(2, Open("t", 2)), Event(1, Replace)]
  }

  /** States along the torn run, one per prefix. */
  function Torn(k: nat): State
    requires k <= 11
  {
    var other, third := Writer([2], Start), Writer([3], Start);
    var d0, d1 := map[0 := [1]], map[0 := [1]][1 := [2]];
    var o0, o1 := map[0 := 0], map[0 := 0][1 := 1];
    match k
    case 0 => Three()
    case 1 => State(Fs(map["t" := 0], map[0 := []]), [Writer([1], Writing("t", 0)), other, third], o0, INITIAL)
    case 2 => State(Fs(map["t" := 0], d0), [Writer([1], Writing("t", 0)), other, third], o0, INITIAL)
    case 3 => State(Fs(map["t" := 0], d0), [Writer([1], Written("t", 0)), other, third], o0, INITIAL)
    case 4 => State(Fs(map["c" := 0], d0), [Writer([1], Looking("t", Replaced)), other, third], o0, 0)
    case 5 => State(Fs(map["c" := 0, "t" := 1], d0[1 := []]),
                    [Writer([1], Looking("t", Replaced)), Writer([2], Writing("t", 1)), third], o1, 0)
    case 6 => State(Fs(map["c" := 0, "t" := 1], d0[1 := []]),
                    [Writer([1], Removing("t", Replaced)), Writer([2], Writing("t", 1)), third], o1, 0)
    case 7 => State(Fs(map["c" := 0], d0[1 := []]),
                    [Writer([1], Finished("t", Replaced)), Writer([2], Writing("t", 1)), third], o1, 0)
    case 8 => State(Fs(map["c" := 0], d1), [Writer([1], Finished("t", Replaced)), Writer([2], Writing("t", 1)), third], o1, 0)
    case 9 => State(Fs(map["c" := 0], d1), [Writer([1], Finished("t", Replaced)), Writer([2], Written("t", 1)), third], o1, 0)
    case 10 => State(Fs(map["c" := 0, "t" := 2], d1[2 := []]),
                     [Writer([1], Finished("t", Replaced)), Writer([2], Written("t", 1)), Writer([3], Writing("t", 2))],
                     o1[2 := 2], 0)
    case _ => State(Fs(map["c" := 2], d1[2 := []]),
                    [Writer([1], Finished("t", Replaced)), Writer([2], Looking("t", Replaced)), Writer([3], Writing("t", 2))],
                    o1[2 := 2], 1)
  }

  lemma TornStart(k: nat)
    requires 0 <= k < 4
    ensures var e := TornRun()[k];
            Enabled(Torn(k), "c", e.writer, e.action) && Apply(Torn(k), "c", e.writer, e.action) == Torn(k + 1)
  {
    var e := TornRun()[k];
    assert [1 as nat][..1] == [1] && [2 as nat][..1] == [2];
    var r, n := Apply(Torn(k), "c", e.writer, e.action), Torn(k + 1);
    assert r.fs.names == n.fs.names && r.fs.data == n.fs.data && r.writers == n.writers && r.owner == n.owner;
  }

  lemma TornMiddle(k: nat)
    requires 4 <= k < 8
    ensures var e := TornRun()[k];
            Enabled(Torn(k), "c", e.writer, e.action) && Apply(Torn(k), "c", e.writer, e.action) == Torn(k + 1)
  {
    var e := TornRun()[k];
    assert [1 as nat][..1] == [1] && [2 as nat][..1] == [2];
    var r, n := Apply(Torn(k), "c", e.writer, e.action), Torn(k + 1);
    assert r.fs.names == n.fs.names && r.fs.data == n.fs.data && r.writers == n.writers && r.owner == n.owner;
  }

  lemma TornEnd(k: nat)
    requires 8 <= k < 11
    ensures var e := TornRun()[k];
            Enabled(Torn(k), "c", e.writer, e.action) && Apply(Torn(k), "c", e.writer, e.action) == Torn(k + 1)
  {
    var e := TornRun()[k];
    assert [1 as nat][..1] == [1] && [2 as nat][..1] == [2];
    var r, n := Apply(Torn(k), "c", e.writer, e.action), Torn(k + 1);
    assert r.fs.names == n.fs.names && r.fs.data == n.fs.data && r.writers == n.writers && r.owner == n.owner;
  }

  lemma TornStep(k: nat)
    requires k < 11
    ensures var e := TornRun()[k];
            Enabled(Torn(k), "c", e.writer, e.action) && Apply(Torn(k), "c", e.writer, e.action) == Torn(k + 1)
  {
    hide *;
    if k < 4 {
      TornStart(k);
    } else if k < 8 {
      TornMiddle(k);
    } else {
      TornEnd(k);
    }
  }

  lemma {:induction false} TornFrom(k: nat)
    requires k <= 11
    ensures Feasible(Torn(k), "c", TornRun()[k..]) && After(Torn(k), "c", TornRun()[k..]) == Torn(11)
    decreases 11 - k
  {
    if k < 11 {
      TornStep(k);
      TornFrom(k + 1);
      assert TornRun()[k..][0] == TornRun()[k] && TornRun()[k..][1..] == TornRun()[k + 1..];
    }
  }

  /** Without the discipline the promise fails: there is a run after which the target exists and holds
      neither the initial file nor any writer's bytes. */
  lemma ReuseTearsTheTarget()
    ensures Init(Three()) && Feasible(Three(), "c", TornRun())
    ensures var r := After(Three(), "c", TornRun());
            && "c" in r.fs.names && r.fs.names["c"] in r.fs.data && Content(r.fs, "c") == []
            && (forall w | 0 <= w < 3 :: Content(r.fs, "c") != Three().writers[w].data)
  {
    hide TornRun, Feasible, After;
    TornFrom(0);
    assert TornRun()[0..] == TornRun();
  }

  // ---------------------------------------------------------------- what a writer can achieve

  /** The actions of one writer as events. */
  function Run(w: nat, actions: seq<Action>): (r: seq<Event>)
    ensures |r| == |actions|
  {
    seq(|actions|, i requires 0 <= i < |actions| => Event(w, actions[i]))
  }

  /** States that follow each other by the actions of one writer make a run. */
  lemma {:induction false} Steps(s: State, target: Name, w: nat, actions: seq<Action>, states: seq<State>)
    requires |states| == |actions| + 1 && states[0] == s
    requires forall i | 0 <= i < |actions| ::
        Enabled(states[i], target, w, actions[i]) && states[i + 1] == Apply(states[i], target, w, actions[i])
    ensures Feasible(s, target, Run(w, actions)) && After(s, target, Run(w, actions)) == states[|actions|]
    decreases |actions|
  {
    hide Enabled, Apply;
    if actions != [] {
      forall i | 0 <= i < |actions[1..]|
        ensures Enabled(states[1..][i], target, w, actions[1..][i])
        ensures states[1..][i + 1] == Apply(states[1..][i], target, w, actions[1..][i])
      {
        assert states[1..][i] == states[i + 1] && states[1..][i + 1] == states[i + 2] && actions[1..][i] == actions[i + 1];
      }
      Steps(states[1], target, w, actions[1..], states[1..]);
      assert Run(w, actions)[1..] == Run(w, actions[1..]);
    }
  }

  /** From every initial state, with a fresh name, any writer that is left alone replaces the target with
      exactly its data, whether it was there or not, and leaves no temporary name behind. */
  lemma AloneSucceeds(s: State, target: Name, w: nat, tmp: Name, inode: nat)
    requires Init(s) && w < |s.writers| && tmp !in s.fs.names && inode !in s.fs.data && tmp != target
    ensures var es := Run(w, [Open(tmp, inode), Write(|s.writers[w].data|), Close, Replace, Look]);
            && Feasible(s, target, es)
            && var r := After(s, target, es);
               && |r.writers| == |s.writers| && r.writers[w].pc == Finished(tmp, Replaced) && tmp !in r.fs.names
               && target in r.fs.names && r.fs.names[target] in r.fs.data && Content(r.fs, target) == s.writers[w].data
  {
    var data := s.writers[w].data;
    var s1 := Apply(s, target, w, Open(tmp, inode));
    var s2 := Apply(s1, target, w, Write(|data|));
    assert data[..|data|] == data;
    var s3 := Apply(s2, target, w, Close);
    var s4 := Apply(s3, target, w, Replace);
    var s5 := Apply(s4, target, w, Look);
    Steps(s, target, w, [Open(tmp, inode), Write(|data|), Close, Replace, Look], [s, s1, s2, s3, s4, s5]);
  }

  /** Where writing or replacing fails, the cleanup removes the name if it is there, and nothing else. */
  lemma FailureCleansUp(s: State, target: Name, w: nat, a: Action)
    requires (a == Fail || a == ReplaceError) && Enabled(s, target, w, a) && s.writers[w].pc.tmp in s.fs.names
    ensures Feasible(s, target, Run(w, [a, Look, Remove]))
    ensures var r := After(s, target, Run(w, [a, Look, Remove]));
            && |r.writers| == |s.writers| && r.writers[w].pc == Finished(s.writers[w].pc.tmp, Failed)
            && r.fs.names == s.fs.names - {s.writers[w].pc.tmp} && r.fs.data == s.fs.data && r.version == s.version
  {
    var s1 := Apply(s, target, w, a);
    var s2 := Apply(s1, target, w, Look);
    var s3 := Apply(s2, target, w, Remove);
    Steps(s, target, w, [a, Look, Remove], [s, s1, s2, s3]);
  }

  /** A writer whose temporary name is gone changes nothing: its replacement fails, it finds nothing to
      remove, and a removal it had already decided on raises. */
  lemma LostName(s: State, target: Name, w: nat)
    requires w < |s.writers| && (s.writers[w].pc.Written? || s.writers[w].pc.Removing?) && s.writers[w].pc.tmp !in s.fs.names
    ensures s.writers[w].pc.Written? ==>
        && Feasible(s, target, Run(w, [Replace, Look]))
        && After(s, target, Run(w, [Replace, Look])) == Moved(s, s.fs, w, Finished(s.writers[w].pc.tmp, Failed))
    ensures s.writers[w].pc.Removing? ==>
        && Feasible(s, target, Run(w, [Remove]))
        && After(s, target, Run(w, [Remove])) == Moved(s, s.fs, w, Finished(s.writers[w].pc.tmp, Failed))
  {
    if s.writers[w].pc.Written? {
      var s1 := Apply(s, target, w, Replace);
      Steps(s, target, w, [Replace, Look], [s, s1, Apply(s1, target, w, Look)]);
    } else {
      var s1 := Apply(s, target, w, Remove);
      Steps(s, target, w, [Remove], [s, s1]);
      assert s1.fs.names == s.fs.names;
    }
  }

  /** No writer ever waits for another: its next call is always possible. */
  lemma NobodyWaits(s0: State, s: State, target: Name, w: nat)
    requires Inv(s0, s, target) && w < |s.writers|
    ensures s.writers[w].pc.Start? ==>
        forall tmp, inode | tmp !in s.fs.names && inode !in s.fs.data && tmp != target :: Enabled(s, target, w, Open(tmp, inode))
    ensures s.writers[w].pc.Writing? ==>
        var full := Write(|s.writers[w].data|);
        Enabled(s, target, w, full) && Enabled(Apply(s, target, w, full), target, w, Close)
    ensures s.writers[w].pc.Writing? ==>
        && s.writers[w].pc.inode in s.fs.data
        && forall upto | |s.fs.data[s.writers[w].pc.inode]| <= upto <= |s.writers[w].data| ::
             && Enabled(s, target, w, Write(upto))
             && Apply(s, target, w, Write(upto)).fs.data == s.fs.data[s.writers[w].pc.inode := s.writers[w].data[..upto]]
    ensures s.writers[w].pc.Written? ==> Enabled(s, target, w, Replace)
    ensures s.writers[w].pc.Looking? ==> Enabled(s, target, w, Look)
    ensures s.writers[w].pc.Removing? ==> Enabled(s, target, w, Remove)
  {
    assert Handle(s0, s, target, w);
    assert s.writers[w].data[..|s.writers[w].data|] == s.writers[w].data;
  }

  /** Every call can fail, and a writer can crash wherever it is. */
  lemma AnythingCanFail(s: State, target: Name, w: nat)
    requires w < |s.writers|
    ensures s.writers[w].pc.Start? ==> Enabled(s, target, w, OpenError) && Apply(s, target, w, OpenError) == Moved(s, s.fs, w, NotOpened)
    ensures s.writers[w].pc.Writing? || s.writers[w].pc.Written? ==> Enabled(s, target, w, Fail)
    ensures s.writers[w].pc.Written? ==> Enabled(s, target, w, ReplaceError)
    ensures s.writers[w].pc.Looking? ==> 
        && Enabled(s, target, w, Overlook)
        && Apply(s, target, w, Overlook) == Moved(s, s.fs, w, LeftBehind(s.writers[w].pc.tmp, s.writers[w].pc.outcome))
    ensures s.writers[w].pc.Removing? ==> 
        && Enabled(s, target, w, RemoveError)
        && Apply(s, target, w, RemoveError) == Moved(s, s.fs, w, LeftBehind(s.writers[w].pc.tmp, Failed))
    ensures s.writers[w].pc.Start? || s.writers[w].pc.Writing? || s.writers[w].pc.Written? || s.writers[w].pc.Looking?
            || s.writers[w].pc.Removing? ==>
        && Enabled(s, target, w, Crash)
        && Apply(s, target, w, Crash)
           == Moved(s, s.fs, w, if s.writers[w].pc.Start? then Crashed else CrashedWith(s.writers[w].pc.tmp))
  {
  }
}
