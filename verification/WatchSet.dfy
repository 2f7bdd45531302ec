/** core/watcher/watcher.go:56-78 and 103-118: which directories are watched. fsnotify tells of a change
    only when the directory it happens in is watched, and AddRoot and handle watch one directory
    at a time. */
module WatchSet {
  import opened Triggers

  /** The directories on disk, those watched, and the directories whose creation was told of but
      not handled yet. */
  datatype Watching = Watching(dirs: set<AbsPath>, watched: set<AbsPath>, told: seq<AbsPath>)

  datatype Move =
    | Appear(top: AbsPath, within: set<AbsPath>)  // mkdir, or a directory moved in with what is inside it
    | HandleNext                                  // handle gets the next create event

  function Parent(d: AbsPath): AbsPath { if d == [] then [] else d[..|d| - 1] }

  predicate CanMove(s: Watching, m: Move) {
    match m
    case Appear(top, within) =>
      && top != [] && top !in s.dirs && Parent(top) in s.dirs
      && forall d :: d in within ==> Inside(top, d) && d !in s.dirs
    case HandleNext => s.told != []
  }

  function Moved(s: Watching, m: Move): Watching
    requires CanMove(s, m)
  {
    match m
    case Appear(top, within) =>
      s.(dirs := s.dirs + {top} + within, told := if Parent(top) in s.watched then s.told + [top] else s.told)
    case HandleNext => s.(watched := s.watched + {s.told[0]}, told := s.told[1..])
  }

  /** AddRoot: everything that is there is watched. */
  function Added(dirs: set<AbsPath>, root: AbsPath): Watching {
    Watching(dirs, set d | d in dirs && IsPrefix(root, d), [])
  }

  predicate CanRun(s: Watching, moves: seq<Move>)
    decreases |moves|
  {
    moves == [] || (CanMove(s, moves[0]) && CanRun(Moved(s, moves[0]), moves[1..]))
  }

  function RunOf(s: Watching, moves: seq<Move>): Watching
    requires CanRun(s, moves)
    decreases |moves|
  {
    if moves == [] then s else RunOf(Moved(s, moves[0]), moves[1..])
  }

  /** Some move of the run brings d by itself, into a directory that is watched at that moment. */
  predicate ComesToWatched(s: Watching, moves: seq<Move>, d: AbsPath)
    requires CanRun(s, moves)
    decreases |moves|
  {
    moves != [] && (
      || (moves[0].Appear? && moves[0].top == d && Parent(d) in s.watched)
      || ComesToWatched(Moved(s, moves[0]), moves[1..], d))
  }

  /** Once every create event is handled, a directory is watched exactly when it was before, or when
      it came by itself into a directory that was watched at that moment. */
  lemma {:induction false} WatchedExactlyWhen(s: Watching, moves: seq<Move>, d: AbsPath)
    requires CanRun(s, moves)
    ensures var n := RunOf(s, moves);
      d in n.watched || d in n.told <==> d in s.watched || d in s.told || ComesToWatched(s, moves, d)
    decreases |moves|
  {
    if moves != [] {
      var n := Moved(s, moves[0]);
      WatchedExactlyWhen(n, moves[1..], d);
      if moves[0].HandleNext? {
        assert s.told == [s.told[0]] + n.told;
        assert d in s.told <==> d == s.told[0] || d in n.told;
      }
    }
  }

  /** A directory that is neither watched nor about to be. */
  predicate Lost(s: Watching, d: AbsPath) { d in s.dirs && d !in s.watched && d !in s.told }

  predicate Known(s: Watching) { s.watched <= s.dirs && forall d :: d in s.told ==> d in s.dirs }

  /** What is lost stays lost, and so does every directory that appears in it later. */
  lemma {:induction false} LostStaysLost(s: Watching, moves: seq<Move>, d: AbsPath)
    requires CanRun(s, moves) && Known(s) && Lost(s, d)
    ensures Lost(RunOf(s, moves), d)
    ensures forall i :: 0 <= i < |moves| && moves[i].Appear? && Parent(moves[i].top) == d ==>
              Lost(RunOf(s, moves), moves[i].top)
    decreases |moves|
  {
    if moves != [] {
      var n, rest := Moved(s, moves[0]), moves[1..];
      LostStaysLost(n, rest, d);
      if moves[0].Appear? && Parent(moves[0].top) == d { LostStaysLost(n, rest, moves[0].top); }
      forall i | 0 <= i < |moves| && moves[i].Appear? && Parent(moves[i].top) == d
        ensures Lost(RunOf(s, moves), moves[i].top)
      {
        if i > 0 { assert moves[i] == rest[i - 1]; }
      }
    }
  }

  /** A directory that came inside another is lost at once. */
  lemma InnerIsLost(s: Watching, top: AbsPath, within: set<AbsPath>, d: AbsPath)
    requires Known(s) && CanMove(s, Appear(top, within)) && d in within
    ensures Known(Moved(s, Appear(top, within))) && Lost(Moved(s, Appear(top, within)), d)
  {
  }

  lemma {:induction false} WatchedStays(s: Watching, moves: seq<Move>, d: AbsPath)
    requires CanRun(s, moves) && d in s.watched
    ensures d in RunOf(s, moves).watched
    decreases |moves|
  {
    if moves != [] { WatchedStays(Moved(s, moves[0]), moves[1..], d); }
  }

  const ROOT: AbsPath := ["r"]
  const OUTER: AbsPath := ["r", "a"]
  const INNER: AbsPath := ["r", "a", "b"]

  lemma Nested()
    ensures Parent(OUTER) == ROOT && Parent(INNER) == OUTER && Inside(OUTER, INNER)
    ensures Added({ROOT}, ROOT) == Watching({ROOT}, {ROOT}, [])
  {
    assert OUTER[..1] == ROOT && INNER[..2] == OUTER && ROOT[..1] == ROOT;
  }

  /** A folder is moved into a root with a folder in it: the outer one is watched, the inner one never,
      whatever is created or moved in after that. */
  lemma MovedInFolderIsLost(later: seq<Move>)
    requires CanRun(Watching({ROOT, OUTER, INNER}, {ROOT, OUTER}, []), later)
    ensures var s, moves := Added({ROOT}, ROOT), [Appear(OUTER, {INNER}), HandleNext] + later;
      CanRun(s, moves) && OUTER in RunOf(s, moves).watched && Lost(RunOf(s, moves), INNER)
  {
    Nested();
    var s0 := Added({ROOT}, ROOT);
    var s1 := Moved(s0, Appear(OUTER, {INNER}));
    assert s1 == Watching({ROOT, OUTER, INNER}, {ROOT}, [OUTER]);
    var s2 := Moved(s1, HandleNext);
    assert s2 == Watching({ROOT, OUTER, INNER}, {ROOT, OUTER}, []);
    LostStaysLost(s2, later, INNER);
    WatchedStays(s2, later, OUTER);
    var moves := [Appear(OUTER, {INNER}), HandleNext] + later;
    assert moves[1..] == [HandleNext] + later && moves[1..][1..] == later;
    assert RunOf(s1, moves[1..]) == RunOf(s2, later);
  }

  /** The same when the inner one is made before the outer one's event is handled. */
  lemma QuickMkdirIsLost()
    ensures var s, moves := Added({ROOT}, ROOT), [Appear(OUTER, {}), Appear(INNER, {}), HandleNext];
      CanRun(s, moves) && RunOf(s, moves) == Watching({ROOT, OUTER, INNER}, {ROOT, OUTER}, [])
  {
    Nested();
    var s0, moves := Added({ROOT}, ROOT), [Appear(OUTER, {}), Appear(INNER, {}), HandleNext];
    var s1 := Moved(s0, Appear(OUTER, {}));
    assert s1 == Watching({ROOT, OUTER}, {ROOT}, [OUTER]);
    var s2 := Moved(s1, Appear(INNER, {}));
    assert s2 == Watching({ROOT, OUTER, INNER}, {ROOT}, [OUTER]);
    var s3 := Moved(s2, HandleNext);
    assert s3 == Watching({ROOT, OUTER, INNER}, {ROOT, OUTER}, []);
    assert moves[1..] == [Appear(INNER, {}), HandleNext] && moves[1..][1..] == [HandleNext] && [HandleNext][1..] == [];
    assert CanRun(s3, []) && RunOf(s3, []) == s3;
    assert CanRun(s2, [HandleNext]) && RunOf(s2, [HandleNext]) == s3;
    assert CanRun(s1, moves[1..]) && RunOf(s1, moves[1..]) == s3;
  }
}
