/** The migration runner (store/migrate.go). A migration body is any partial function
    of the database contents; every I/O step may fail. */
module Migrate {
  import opened Wrappers
  import opened Sorting
  import Decimal

  datatype Entry = Entry(name: string, isDir: bool)

  datatype Migration = Migration(version: nat, name: string)

  datatype Error =
    | NoPrefix(name: string)
    | OutOfRange(name: string)
    | Duplicate(version: nat)
    | Interrupted

  /** The operations that can fail in one run. */
  datatype Stage =
    | ReadDir
    | ReadCursor
    | ReadFile(version: nat)
    | Begin(version: nat)
    | ExecBody(version: nat)
    | ExecPragma(version: nat)
    | Commit(version: nat)

  type Faults = Stage -> bool

  // ---- File names ------------------------------------------------------------------------

  const MAX_INT := 0x7fff_ffff_ffff_ffff

  /** The leading run of digits. */
  function LeadingDigits(name: string): (n: nat)
    ensures n <= |name| && Decimal.AllDigits(name[..n])
    ensures n < |name| ==> !Decimal.IsDigit(name[n])
  {
    if name == [] || !Decimal.IsDigit(name[0]) then 0 else
      var n := 1 + LeadingDigits(name[1..]);
      assert name[..n] == [name[0]] + name[1..][..n - 1];
      n
  }

  function VersionOf(name: string): Result<nat, Error> {
    var n := LeadingDigits(name);
    if n == 0 then Err(NoPrefix(name))
    else if Decimal.Value(name[..n]) > MAX_INT then Err(OutOfRange(name))
    else Ok(Decimal.Value(name[..n]))
  }

  method MigrationVersion(name: string) returns (r: Result<nat, Error>)
    ensures r == VersionOf(name)
  {
    var i := 0;
    while i < |name| && '0' <= name[i] <= '9'
      invariant i <= |name| && Decimal.AllDigits(name[..i])
    {
      assert name[..i + 1] == name[..i] + [name[i]];
      i := i + 1;
    }
    LeadingDigitsIs(name, i);
    if i == 0 {
      return Err(NoPrefix(name));
    }
    if Decimal.Value(name[..i]) > MAX_INT {
      return Err(OutOfRange(name));
    }
    return Ok(Decimal.Value(name[..i]));
  }

  lemma {:induction false} LeadingDigitsIs(name: string, n: nat)
    requires n <= |name| && Decimal.AllDigits(name[..n]) && (n < |name| ==> !Decimal.IsDigit(name[n]))
    ensures LeadingDigits(name) == n
  {
    if n > 0 {
      assert name[0] in name[..n] && name[1..][..n - 1] == name[..n][1..];
      assert forall c :: c in name[..n][1..] ==> c in name[..n];
      LeadingDigitsIs(name[1..], n - 1);
    }
  }

  /** NNNN_description.sql has version NNNN, however it is padded. */
  lemma VersionRoundTrip(v: nat, padding: nat, rest: string)
    requires v <= MAX_INT && (rest != [] ==> !Decimal.IsDigit(rest[0]))
    ensures VersionOf(Decimal.Zeros(padding) + Decimal.Digits(v) + rest) == Ok(v)
  {
    var digits := Decimal.Zeros(padding) + Decimal.Digits(v);
    Decimal.LeadingZeros(padding, Decimal.Digits(v));
    Decimal.ValueOfDigits(v);
    assert (digits + rest)[..|digits|] == digits;
    LeadingDigitsIs(digits + rest, |digits|);
  }

  predicate IsMigration(e: Entry) {
    !e.isDir && |e.name| >= 4 && e.name[|e.name| - 4..] == ".sql"
  }

  /** Files named <anything>.sql, and nothing else. */
  lemma OnlySqlFiles(e: Entry)
    ensures IsMigration(e) <==> !e.isDir && exists stem :: e.name == stem + ".sql"
  {
    if IsMigration(e) {
      assert e.name == e.name[..|e.name| - 4] + ".sql";
    }
    forall stem | e.name == stem + ".sql" ensures e.name[|e.name| - 4..] == ".sql" {
      assert |e.name| == |stem| + 4;
    }
  }

  /** A name is refused exactly when it does not start with a digit, or its number does not
      fit a 64-bit integer. */
  lemma VersionRefused(name: string)
    ensures VersionOf(name) == Err(NoPrefix(name)) <==> name == "" || !('0' <= name[0] <= '9')
    ensures VersionOf(name).Ok? ==> VersionOf(name).value < 0x8000_0000_0000_0000
    ensures VersionOf(name).Err? ==> VersionOf(name).error in {NoPrefix(name), OutOfRange(name)}
  {
  }

  /** The migrations of a directory in directory order, or the first bad name. */
  function Collect(entries: seq<Entry>): Result<seq<Migration>, Error> {
    if entries == [] then Ok([]) else
      var e := entries[|entries| - 1];
      match Collect(entries[..|entries| - 1])
      case Err(x) => Err(x)
      case Ok(front) =>
        if !IsMigration(e) then Ok(front)
        else match VersionOf(e.name)
          case Err(x) => Err(x)
          case Ok(v) => Ok(front + [Migration(v, e.name)])
  }

  // ---- One run -----------------------------------------------------------------------------

  /** A database: its contents, its user_version, and (a history) the versions committed. */
  datatype Db<S> = Db(data: S, cursor: int, journal: seq<nat>)

  predicate Before(a: Migration, b: Migration) { a.version < b.version }

  /** One migration's transaction: the body and the cursor move together or not at all. */
  function ApplyOne<S>(bodies: (string, S) -> Option<S>, faults: Faults, db: Db<S>, m: Migration): Option<Db<S>> {
    if faults(Begin(m.version)) || faults(ExecBody(m.version)) then None
    else match bodies(m.name, db.data)
      case None => None
      case Some(data) =>
        if faults(ExecPragma(m.version)) || faults(Commit(m.version)) then None
        else Some(Db(data, m.version, db.journal + [m.version]))
  }

  function ApplyAll<S>(bodies: (string, S) -> Option<S>, faults: Faults, db: Db<S>, order: seq<Migration>): (Db<S>, bool)
    decreases |order|
  {
    if order == [] then (db, true)
    else if db.cursor >= order[0].version then ApplyAll(bodies, faults, db, order[1..])
    else if faults(ReadFile(order[0].version)) then (db, false)
    else match ApplyOne(bodies, faults, db, order[0])
      case None => (db, false)
      case Some(next) => ApplyAll(bodies, faults, next, order[1..])
  }

  /** order holds the migrations in ascending version order. */
  ghost predicate IsOrder(migs: seq<Migration>, order: seq<Migration>) {
    StrictlySorted(Before, order) && multiset(order) == multiset(migs)
  }

  ghost predicate Distinct(migs: seq<Migration>) {
    forall i, j :: 0 <= i < j < |migs| ==> migs[i].version != migs[j].version
  }

  class Runner<S(!new)> {
    const bodies: (string, S) -> Option<S>
    var data: S
    var cursor: int
    ghost var journal: seq<nat>

    ghost function Abs(): Db<S>
      reads this
    {
      Db(data, cursor, journal)
    }

    constructor (bodies: (string, S) -> Option<S>, data: S, cursor: int)
      ensures this.bodies == bodies && Abs() == Db(data, cursor, [])
    {
      this.bodies, this.data, this.cursor, this.journal := bodies, data, cursor, [];
    }

    /** A transaction: nothing is visible before Commit. */
    method Transact(m: Migration, faults: Faults) returns (ok: bool)
      modifies this
      ensures match ApplyOne(bodies, faults, old(Abs()), m)
              case None => !ok && Abs() == old(Abs())
              case Some(next) => ok && Abs() == next
    {
      if faults(Begin(m.version)) {
        return false;
      }
      var scratch := bodies(m.name, data);
      if faults(ExecBody(m.version)) || scratch.None? {
        return false;
      }
      if faults(ExecPragma(m.version)) || faults(Commit(m.version)) {
        return false;
      }
      data, cursor, journal := scratch.value, m.version, journal + [m.version];
      return true;
    }

    method Migrate(entries: seq<Entry>, faults: Faults) returns (err: Option<Error>)
      modifies this
      ensures faults(ReadDir) ==> err == Some(Interrupted) && Abs() == old(Abs())
      ensures !faults(ReadDir) ==> match Collect(entries)
        case Err(x) => err == Some(x) && Abs() == old(Abs())
        case Ok(migs) =>
          if !Distinct(migs) then
            err.Some? && err.value.Duplicate? && Abs() == old(Abs())
            && exists i, j :: 0 <= i < j < |migs| && migs[i].version == migs[j].version == err.value.version
          else if faults(ReadCursor) then err == Some(Interrupted) && Abs() == old(Abs())
          else forall order :: IsOrder(migs, order) ==>
            (Abs(), err) == (ApplyAll(bodies, faults, old(Abs()), order).0,
                             if ApplyAll(bodies, faults, old(Abs()), order).1 then None else Some(Interrupted))
    {
      if faults(ReadDir) {
        return Some(Interrupted);
      }
      var migs: seq<Migration> := [];
      for i := 0 to |entries|
        invariant Collect(entries[..i]) == Ok(migs) && Abs() == old(Abs())
      {
        CollectNext(entries, i);
        if !IsMigration(entries[i]) {
          continue;
        }
        var v := MigrationVersion(entries[i].name);
        if v.Err? {
          CollectStops(entries, i + 1);
          return Some(v.error);
        }
        migs := migs + [Migration(v.value, entries[i].name)];
      }
      assert entries[..|entries|] == entries;
      var order := Sort(Before, migs);
      var n := 1;
      while n < |order|
        invariant n >= 1 && Abs() == old(Abs())
        invariant forall k :: 1 <= k < n && k < |order| ==> order[k].version != order[k - 1].version
      {
        if order[n].version == order[n - 1].version {
          TwiceInPermutation(order, migs, n - 1, n);
          return Some(Duplicate(order[n].version));
        }
        n := n + 1;
      }
      AdjacentDistinct(order, migs);
      if faults(ReadCursor) {
        return Some(Interrupted);
      }
      OrderUnique(migs, order);
      var current := cursor;
      for i := 0 to |order|
        invariant current == cursor
        invariant ApplyAll(bodies, faults, old(Abs()), order) == ApplyAll(bodies, faults, Abs(), order[i..])
      {
        assert order[i..][1..] == order[i + 1..];
        if current >= order[i].version {
          continue;
        }
        if faults(ReadFile(order[i].version)) {
          return Some(Interrupted);
        }
        var ok := Transact(order[i], faults);
        if !ok {
          return Some(Interrupted);
        }
        current := order[i].version;
      }
      return None;
    }
  }

  lemma CollectNext(entries: seq<Entry>, i: nat)
    requires i < |entries|
    ensures entries[..i + 1][..i] == entries[..i] && entries[..i + 1][i] == entries[i]
  {
  }

  lemma {:induction false} CollectStops(entries: seq<Entry>, i: nat)
    requires i <= |entries| && Collect(entries[..i]).Err?
    ensures Collect(entries) == Collect(entries[..i])
  {
    if i == |entries| {
      assert entries[..i] == entries;
    } else {
      var front := entries[..|entries| - 1];
      assert front[..i] == entries[..i];
      CollectStops(front, i);
    }
  }

  lemma OrderUnique(migs: seq<Migration>, order: seq<Migration>)
    requires IsOrder(migs, order)
    ensures forall o :: IsOrder(migs, o) ==> o == order
  {
    forall o | IsOrder(migs, o) ensures o == order {
      SameElements(o, order);
      UniqueByElements(Before, o, order);
    }
  }

  lemma SameElements<T>(a: seq<T>, b: seq<T>)
    requires multiset(a) == multiset(b)
    ensures forall x :: x in a <==> x in b
  {
    forall x ensures x in a <==> x in b {
      assert x in a <==> x in multiset(a);
      assert x in b <==> x in multiset(b);
    }
  }

  /** A sorted list without equal neighbours is strictly sorted, and comes from distinct versions. */
  lemma AdjacentDistinct(order: seq<Migration>, migs: seq<Migration>)
    requires Sorted(Before, order) && multiset(order) == multiset(migs)
    requires forall k :: 1 <= k < |order| ==> order[k].version != order[k - 1].version
    ensures IsOrder(migs, order) && Distinct(migs)
  {
    forall i, j | 0 <= i < j < |order| ensures Before(order[i], order[j]) {
      assert !Before(order[j], order[i]) && !Before(order[j - 1], order[i]) && !Before(order[j], order[j - 1]);
    }
    if !Distinct(migs) {
      var i, j :| 0 <= i < j < |migs| && migs[i].version == migs[j].version;
      TwiceInPermutation(migs, order, i, j);
    }
  }

  /** Two elements of one version stay two elements in any permutation. */
  lemma TwiceInPermutation(a: seq<Migration>, b: seq<Migration>, i: nat, j: nat)
    requires i < j < |a| && a[i].version == a[j].version && multiset(a) == multiset(b)
    ensures exists p, q :: 0 <= p < q < |b| && b[p].version == b[q].version == a[i].version
  {
    SameElements(a, b);
    if a[i] == a[j] {
      CountedTwice(a, i, j);
      var p: nat, q: nat := FindTwice(b, a[i]);
    } else {
      assert a[i] in b && a[j] in b;
      var p :| 0 <= p < |b| && b[p] == a[i];
      var q :| 0 <= q < |b| && b[q] == a[j];
      assert p < q || q < p;
    }
  }

  lemma {:induction false} FindTwice<T>(b: seq<T>, x: T) returns (p: nat, q: nat)
    requires multiset(b)[x] >= 2
    ensures p < q < |b| && b[p] == b[q] == x
  {
    var n := |b| - 1;
    assert b == b[..n] + [b[n]];
    if b[n] == x {
      assert x in multiset(b[..n]);
      p :| 0 <= p < n && b[..n][p] == x;
      q := n;
    } else {
      p, q := FindTwice(b[..n], x);
    }
  }

  // ---- Crash and resume ----------------------------------------------------------------------

  const NO_FAULTS: Faults := (_: Stage) => false

  /** Successive runs, each with its own failures; their outcomes are ignored. */
  function Runs<S>(bodies: (string, S) -> Option<S>, fs: seq<Faults>, db: Db<S>, order: seq<Migration>): Db<S> {
    if fs == [] then db else Runs(bodies, fs[1..], ApplyAll(bodies, fs[0], db, order).0, order)
  }

  /** Whatever a run got done, finishing it is the same as never having been interrupted. */
  lemma {:induction false} RunThenFinish<S>(bodies: (string, S) -> Option<S>, faults: Faults, db: Db<S>, order: seq<Migration>)
    requires StrictlySorted(Before, order)
    ensures var (db1, ok) := ApplyAll(bodies, faults, db, order);
      && db.cursor <= db1.cursor
      && ApplyAll(bodies, NO_FAULTS, db1, order) == ApplyAll(bodies, NO_FAULTS, db, order)
      && (ok ==> ApplyAll(bodies, NO_FAULTS, db, order) == (db1, true))
    decreases |order|
  {
    if order != [] {
      var m := order[0];
      if db.cursor >= m.version {
        RunThenFinish(bodies, faults, db, order[1..]);
      } else if !faults(ReadFile(m.version)) && ApplyOne(bodies, faults, db, m).Some? {
        RunThenFinish(bodies, faults, ApplyOne(bodies, faults, db, m).value, order[1..]);
      }
    }
  }

  lemma {:induction false} RunsThenFinish<S>(bodies: (string, S) -> Option<S>, fs: seq<Faults>, db: Db<S>, order: seq<Migration>)
    requires StrictlySorted(Before, order)
    ensures db.cursor <= Runs(bodies, fs, db, order).cursor
    ensures ApplyAll(bodies, NO_FAULTS, Runs(bodies, fs, db, order), order) == ApplyAll(bodies, NO_FAULTS, db, order)
  {
    if fs != [] {
      RunThenFinish(bodies, fs[0], db, order);
      RunsThenFinish(bodies, fs[1..], ApplyAll(bodies, fs[0], db, order).0, order);
    }
  }

  /** Any number of runs failing at any points, then one that succeeds, leave the database,
      its user_version and the commits exactly as one uninterrupted run does. */
  lemma CrashResume<S>(bodies: (string, S) -> Option<S>, fs: seq<Faults>, last: Faults, db: Db<S>, order: seq<Migration>)
    requires StrictlySorted(Before, order)
    requires ApplyAll(bodies, last, Runs(bodies, fs, db, order), order).1
    ensures ApplyAll(bodies, NO_FAULTS, db, order) == ApplyAll(bodies, last, Runs(bodies, fs, db, order), order)
  {
    RunsThenFinish(bodies, fs, db, order);
    RunThenFinish(bodies, last, Runs(bodies, fs, db, order), order);
  }

  /** The migrations a run still has to apply. */
  function Pending(cursor: int, order: seq<Migration>): seq<Migration> {
    if order == [] then []
    else (if cursor >= order[0].version then [] else [order[0]]) + Pending(cursor, order[1..])
  }

  function Versions(ms: seq<Migration>): seq<nat> {
    seq(|ms|, i requires 0 <= i < |ms| => ms[i].version)
  }

  /** The contents after the bodies of ms ran one after the other, if none failed. */
  function Effect<S>(bodies: (string, S) -> Option<S>, ms: seq<Migration>, data: S): Option<S> {
    if ms == [] then Some(data)
    else match bodies(ms[0].name, data)
      case None => None
      case Some(next) => Effect(bodies, ms[1..], next)
  }

  lemma {:induction false} PendingAbove(cursor: int, order: seq<Migration>)
    requires forall i :: 0 <= i < |order| ==> cursor < order[i].version
    ensures Pending(cursor, order) == order
  {
    if order != [] { PendingAbove(cursor, order[1..]); }
  }

  /** Some operation of the run of version v fails. */
  predicate FaultAt(faults: Faults, v: nat) {
    faults(ReadFile(v)) || faults(Begin(v)) || faults(ExecBody(v)) || faults(ExecPragma(v)) || faults(Commit(v))
  }

  /** What one run did: the bodies of the first k pending migrations took effect and were
      committed, all of them exactly when it succeeded; the next one met a fault or failed. */
  ghost predicate CommittedFirst<S>(bodies: (string, S) -> Option<S>, faults: Faults, db: Db<S>, pending: seq<Migration>, k: nat, db1: Db<S>, ok: bool) {
    && k <= |pending|
    && Effect(bodies, pending[..k], db.data) == Some(db1.data)
    && db1.journal == db.journal + Versions(pending[..k])
    && db1.cursor == (if k == 0 then db.cursor else pending[k - 1].version)
    && (ok <==> k == |pending|)
    && (forall i :: 0 <= i < k ==> !FaultAt(faults, pending[i].version))
    && (k < |pending| ==> FaultAt(faults, pending[k].version) || bodies(pending[k].name, db1.data) == None)
  }

  /** The run of these migrations did so with its first k. */
  ghost predicate RunCommits<S>(bodies: (string, S) -> Option<S>, faults: Faults, db: Db<S>, order: seq<Migration>, k: nat) {
    var (db1, ok) := ApplyAll(bodies, faults, db, order);
    CommittedFirst(bodies, faults, db, Pending(db.cursor, order), k, db1, ok)
  }

  /** One run applies and commits, in order and each once, a first part of what was pending,
      and stops only at a fault or a failing body. */
  lemma {:induction false} RunCommitsPrefix<S>(bodies: (string, S) -> Option<S>, faults: Faults, db: Db<S>, order: seq<Migration>) returns (k: nat)
    requires StrictlySorted(Before, order)
    ensures RunCommits(bodies, faults, db, order, k)
    decreases |order|
  {
    k := 0;
    if order == [] {
      NoneYet(bodies, faults, db, [], true);
    } else if db.cursor >= order[0].version {
      k := RunCommitsPrefix(bodies, faults, db, order[1..]);
      SkipCommitted(bodies, faults, db, order, k);
    } else if faults(ReadFile(order[0].version)) || ApplyOne(bodies, faults, db, order[0]).None? {
      StopCommitted(bodies, faults, db, order);
    } else {
      var next := ApplyOne(bodies, faults, db, order[0]).value;
      var n := RunCommitsPrefix(bodies, faults, next, order[1..]);
      HeadCommitted(bodies, faults, db, order, next, n);
      k := n + 1;
    }
  }

  lemma SkipCommitted<S>(bodies: (string, S) -> Option<S>, faults: Faults, db: Db<S>, order: seq<Migration>, k: nat)
    requires order != [] && db.cursor >= order[0].version && RunCommits(bodies, faults, db, order[1..], k)
    ensures RunCommits(bodies, faults, db, order, k)
  {
    assert Pending(db.cursor, order) == Pending(db.cursor, order[1..]);
  }

  lemma StopCommitted<S>(bodies: (string, S) -> Option<S>, faults: Faults, db: Db<S>, order: seq<Migration>)
    requires StrictlySorted(Before, order) && order != [] && db.cursor < order[0].version
    requires faults(ReadFile(order[0].version)) || ApplyOne(bodies, faults, db, order[0]).None?
    ensures RunCommits(bodies, faults, db, order, 0)
  {
    RestPending(db.cursor, order);
    NoneYet(bodies, faults, db, order, false);
  }

  lemma HeadCommitted<S>(bodies: (string, S) -> Option<S>, faults: Faults, db: Db<S>, order: seq<Migration>, next: Db<S>, n: nat)
    requires StrictlySorted(Before, order) && order != [] && db.cursor < order[0].version
    requires !faults(ReadFile(order[0].version)) && ApplyOne(bodies, faults, db, order[0]) == Some(next)
    requires RunCommits(bodies, faults, next, order[1..], n)
    ensures RunCommits(bodies, faults, db, order, n + 1)
  {
    var (db1, ok) := ApplyAll(bodies, faults, next, order[1..]);
    HeadApplied(bodies, faults, db, order, next);
    AppliedOne(bodies, faults, db, order[0], next);
    RestPending(db.cursor, order);
    assert CommittedFirst(bodies, faults, next, order[1..], n, db1, ok);
    OneMore(bodies, faults, db, order[0], next, order[1..], n, db1, ok);
    assert [order[0]] + order[1..] == order;
  }

  lemma HeadApplied<S>(bodies: (string, S) -> Option<S>, faults: Faults, db: Db<S>, order: seq<Migration>, next: Db<S>)
    requires order != [] && db.cursor < order[0].version
    requires !faults(ReadFile(order[0].version)) && ApplyOne(bodies, faults, db, order[0]) == Some(next)
    ensures ApplyAll(bodies, faults, db, order) == ApplyAll(bodies, faults, next, order[1..])
  {
  }

  lemma NoneYet<S>(bodies: (string, S) -> Option<S>, faults: Faults, db: Db<S>, pending: seq<Migration>, ok: bool)
    requires ok == (pending == [])
    requires pending != [] ==> FaultAt(faults, pending[0].version) || bodies(pending[0].name, db.data) == None
    ensures CommittedFirst(bodies, faults, db, pending, 0, db, ok)
  {
    assert pending[..0] == [] && Versions([]) == [];
    assert db.journal + [] == db.journal;
  }

  /** Past a pending migration, everything after it is pending too, before and after it is
      applied. */
  lemma RestPending(cursor: int, order: seq<Migration>)
    requires StrictlySorted(Before, order) && order != [] && cursor < order[0].version
    ensures Pending(cursor, order) == order && Pending(order[0].version, order[1..]) == order[1..]
  {
    forall i | 0 <= i < |order[1..]| ensures order[0].version < order[1..][i].version {
      assert Before(order[0], order[i + 1]);
    }
    PendingAbove(order[0].version, order[1..]);
    PendingAbove(cursor, order);
  }

  /** A transaction that commits ran the body on what was there. */
  lemma AppliedOne<S>(bodies: (string, S) -> Option<S>, faults: Faults, db: Db<S>, m: Migration, next: Db<S>)
    requires !faults(ReadFile(m.version)) && ApplyOne(bodies, faults, db, m) == Some(next)
    ensures !FaultAt(faults, m.version) && bodies(m.name, db.data) == Some(next.data)
    ensures next.cursor == m.version && next.journal == db.journal + [m.version]
  {
  }

  lemma OneMore<S>(bodies: (string, S) -> Option<S>, faults: Faults, db: Db<S>, m: Migration, next: Db<S>, rest: seq<Migration>, k: nat, db1: Db<S>, ok: bool)
    requires CommittedFirst(bodies, faults, next, rest, k, db1, ok)
    requires !FaultAt(faults, m.version) && bodies(m.name, db.data) == Some(next.data)
    requires next.cursor == m.version && next.journal == db.journal + [m.version]
    ensures CommittedFirst(bodies, faults, db, [m] + rest, k + 1, db1, ok)
  {
    var more := [m] + rest;
    assert more[..k + 1] == [m] + rest[..k] && more[..k + 1][1..] == rest[..k];
    assert Versions(more[..k + 1]) == [m.version] + Versions(rest[..k]);
    assert db.journal + [m.version] + Versions(rest[..k]) == db.journal + ([m.version] + Versions(rest[..k]));
    forall i | 0 <= i < k + 1 ensures !FaultAt(faults, more[i].version) {
      if i > 0 { assert more[i] == rest[i - 1]; }
    }
  }

  /** A run succeeds exactly when nothing it has to do meets a fault and every pending body
      runs through; then the contents are those bodies' effect, one after the other. */
  lemma SucceedsIff<S>(bodies: (string, S) -> Option<S>, faults: Faults, db: Db<S>, order: seq<Migration>)
    requires StrictlySorted(Before, order)
    ensures var (db1, ok) := ApplyAll(bodies, faults, db, order);
      var pending := Pending(db.cursor, order);
      && (ok <==> Effect(bodies, pending, db.data).Some? && forall i :: 0 <= i < |pending| ==> !FaultAt(faults, pending[i].version))
      && (ok ==> Effect(bodies, pending, db.data) == Some(db1.data))
  {
    var k := RunCommitsPrefix(bodies, faults, db, order);
    var pending := Pending(db.cursor, order);
    if k == |pending| {
      assert pending[..k] == pending;
    } else {
      EffectSplit(bodies, pending, k, db.data);
    }
  }

  /** Running a list of bodies is running its first k, then the rest. */
  lemma {:induction false} EffectSplit<S>(bodies: (string, S) -> Option<S>, ms: seq<Migration>, k: nat, data: S)
    requires k <= |ms|
    ensures Effect(bodies, ms, data) ==
      match Effect(bodies, ms[..k], data) case None => None case Some(mid) => Effect(bodies, ms[k..], mid)
  {
    if k > 0 && bodies(ms[0].name, data).Some? {
      EffectSplit(bodies, ms[1..], k - 1, bodies(ms[0].name, data).value);
      assert ms[..k][1..] == ms[1..][..k - 1] && ms[1..][k - 1..] == ms[k..];
    } else if k == 0 {
      assert ms[..0] == [] && ms[0..] == ms;
    }
  }

  lemma {:induction false} PendingFrom(cursor: int, order: seq<Migration>, i: nat)
    requires i < |Pending(cursor, order)|
    ensures Pending(cursor, order)[i] in order && cursor < Pending(cursor, order)[i].version
  {
    var here := if cursor >= order[0].version then 0 else 1;
    if i >= here {
      PendingFrom(cursor, order[1..], i - here);
      assert Pending(cursor, order)[i] == Pending(cursor, order[1..])[i - here];
    }
  }

  /** What is pending is ascending and newer than the cursor, so no body commits twice. */
  lemma {:induction false} PendingAscends(cursor: int, order: seq<Migration>)
    requires StrictlySorted(Before, order)
    ensures forall i :: 0 <= i < |Pending(cursor, order)| ==> cursor < Pending(cursor, order)[i].version
    ensures StrictlySorted(Before, Pending(cursor, order))
  {
    if order != [] {
      PendingAscends(cursor, order[1..]);
      if cursor < order[0].version { RestPending(cursor, order); }
    }
  }

  /** Over any runs the journal grows by strictly ascending migrations of the list above the
      old cursor, and the contents are the effect of exactly those bodies, each once. */
  lemma {:induction false} RunsCommitOnce<S>(bodies: (string, S) -> Option<S>, fs: seq<Faults>, db: Db<S>, order: seq<Migration>) returns (added: seq<Migration>)
    requires StrictlySorted(Before, order)
    ensures var end := Runs(bodies, fs, db, order);
      Adds(bodies, db, order, added, end)
  {
    added := [];
    if fs == [] {
      assert db.journal + Versions([]) == db.journal;
    } else {
      var db1 := ApplyAll(bodies, fs[0], db, order).0;
      var first := RunAdds(bodies, fs[0], db, order);
      RunThenFinish(bodies, fs[0], db, order);
      RunsThenFinish(bodies, fs[1..], db1, order);
      var later := RunsCommitOnce(bodies, fs[1..], db1, order);
      added := first + later;
      AddsJoin(bodies, db, order, first, db1, later, Runs(bodies, fs[1..], db1, order));
    }
  }

  /** end is db after the migrations added, each once and in order. */
  ghost predicate Adds<S>(bodies: (string, S) -> Option<S>, db: Db<S>, order: seq<Migration>, added: seq<Migration>, end: Db<S>) {
    && end.journal == db.journal + Versions(added)
    && Effect(bodies, added, db.data) == Some(end.data)
    && (forall i :: 0 <= i < |added| ==> added[i] in order && db.cursor < added[i].version <= end.cursor)
    && StrictlySorted(Before, added)
  }

  lemma RunAdds<S>(bodies: (string, S) -> Option<S>, faults: Faults, db: Db<S>, order: seq<Migration>) returns (added: seq<Migration>)
    requires StrictlySorted(Before, order)
    ensures Adds(bodies, db, order, added, ApplyAll(bodies, faults, db, order).0)
  {
    var k := RunCommitsPrefix(bodies, faults, db, order);
    added := Pending(db.cursor, order)[..k];
    FirstBounded(db.cursor, order, k, ApplyAll(bodies, faults, db, order).0.cursor);
  }

  lemma AddsJoin<S>(bodies: (string, S) -> Option<S>, db: Db<S>, order: seq<Migration>, first: seq<Migration>, mid: Db<S>, later: seq<Migration>, end: Db<S>)
    requires Adds(bodies, db, order, first, mid) && Adds(bodies, mid, order, later, end)
    requires db.cursor <= mid.cursor <= end.cursor
    ensures Adds(bodies, db, order, first + later, end)
  {
    JoinRuns(bodies, first, later, db.data, mid.data);
    assert db.journal + Versions(first) + Versions(later) == db.journal + (Versions(first) + Versions(later));
  }

  /** The first k pending migrations reach up to the last of them. */
  lemma FirstBounded(cursor: int, order: seq<Migration>, k: nat, end: int)
    requires StrictlySorted(Before, order) && k <= |Pending(cursor, order)|
    requires end == if k == 0 then cursor else Pending(cursor, order)[k - 1].version
    ensures forall i :: 0 <= i < k ==> Pending(cursor, order)[i] in order && cursor < Pending(cursor, order)[i].version <= end
    ensures StrictlySorted(Before, Pending(cursor, order)[..k])
  {
    var pending := Pending(cursor, order);
    PendingAscends(cursor, order);
    forall i | 0 <= i < k ensures pending[i] in order && cursor < pending[i].version <= end {
      PendingFrom(cursor, order, i);
      assert i < k - 1 ==> Before(pending[i], pending[k - 1]);
    }
  }

  lemma JoinRuns<S>(bodies: (string, S) -> Option<S>, first: seq<Migration>, later: seq<Migration>, data: S, mid: S)
    requires Effect(bodies, first, data) == Some(mid)
    ensures Effect(bodies, first + later, data) == Effect(bodies, later, mid)
    ensures Versions(first + later) == Versions(first) + Versions(later)
  {
    EffectSplit(bodies, first + later, |first|, data);
    assert (first + later)[..|first|] == first && (first + later)[|first|..] == later;
  }

  // ---- Directory order ---------------------------------------------------------------------

  /** The migration an entry stands for, if it is one. */
  predicate Stands(e: Entry, m: Migration) {
    IsMigration(e) && VersionOf(e.name) == Ok(m.version) && e.name == m.name
  }

  lemma {:induction false} CollectCounts(entries: seq<Entry>, m: Migration)
    requires Collect(entries).Ok?
    ensures multiset(Collect(entries).value)[m] ==
      if Stands(Entry(m.name, false), m) then multiset(entries)[Entry(m.name, false)] else 0
    decreases |entries|
  {
    if entries != [] {
      var front, e := entries[..|entries| - 1], entries[|entries| - 1];
      assert entries == front + [e];
      CollectCounts(front, m);
    }
  }

  lemma {:induction false} CollectsIff(entries: seq<Entry>)
    ensures Collect(entries).Ok? <==> forall e :: e in entries && IsMigration(e) ==> VersionOf(e.name).Ok?
    decreases |entries|
  {
    if entries != [] {
      var front, e := entries[..|entries| - 1], entries[|entries| - 1];
      assert entries == front + [e];
      CollectsIff(front);
    }
  }

  /** Listing the same directory in another order gives the same migrations to apply, and
      rejects the same directories. */
  lemma DirectoryOrderIrrelevant(a: seq<Entry>, b: seq<Entry>)
    requires multiset(a) == multiset(b)
    ensures Collect(a).Ok? <==> Collect(b).Ok?
    ensures Collect(a).Ok? ==>
      && multiset(Collect(a).value) == multiset(Collect(b).value)
      && forall order :: IsOrder(Collect(a).value, order) <==> IsOrder(Collect(b).value, order)
  {
    SameElements(a, b);
    CollectsIff(a);
    CollectsIff(b);
    if Collect(a).Ok? {
      forall m ensures multiset(Collect(a).value)[m] == multiset(Collect(b).value)[m] {
        CollectCounts(a, m);
        CollectCounts(b, m);
      }
    }
  }
}
