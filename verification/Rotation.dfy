/** Names of rotated log files (logger/sinks/effective_sink.cc:166-213). */
module Rotation {
  import opened Decimals

  const SUFFIX := ".log"

  /** A time rendered as year, month, day, hour, minute and second. */
  type Stamp = s: string | |s| == 14 witness "20240101000000"

  // ---------- names ----------

  function Stem(file: string, now: Stamp): string {
    file + "_" + now
  }

  function Base(file: string, now: Stamp): string {
    Stem(file, now) + SUFFIX
  }

  function Indexed(file: string, now: Stamp, k: nat): string {
    Stem(file, now) + "_" + Digits(k) + SUFFIX
  }

  predicate Contains(name: string, part: string) {
    exists i | 0 <= i <= |name| :: part <= name[i..]
  }

  /** The part may stand anywhere in the name. */
  lemma ContainsIff(name: string, part: string)
    ensures Contains(name, part) <==> exists before, after :: name == before + part + after
  {
    if Contains(name, part) {
      var i :| 0 <= i <= |name| && part <= name[i..];
      assert name == name[..i] + part + name[i..][|part|..];
    }
    if before, after :| name == before + part + after {
      assert name[|before|..] == part + after;
    }
  }

  ghost function Matching(names: set<string>, part: string): set<string> {
    set name | name in names && Contains(name, part)
  }

  /** `GetFilePath_`: the current file until it has outgrown `limit`, then a name made from the clock. */
  ghost function NextPath(file: string, limit: nat, names: set<string>, path: string, size: nat, now: Stamp): string {
    if path == "" then Base(file, now)
    else if size <= limit then path
    else if Base(file, now) !in names then Base(file, now)
    else Indexed(file, now, |Matching(names, Stem(file, now))|)
  }

  lemma NamesContainTheirStem(file: string, now: Stamp, k: nat)
    ensures Contains(Base(file, now), Stem(file, now))
    ensures Contains(Indexed(file, now, k), Stem(file, now))
  {
    assert Stem(file, now) <= Base(file, now)[0..];
    assert Stem(file, now) <= Indexed(file, now, k)[0..];
  }

  /** A name tells its stamp and its index apart: no two of them coincide. */
  lemma NamesAreDistinct(file: string, t: Stamp, k: nat, t': Stamp, k': nat)
    ensures Indexed(file, t, k) == Indexed(file, t', k') ==> t == t' && k == k'
    ensures Indexed(file, t, k) != Base(file, t')
    ensures Base(file, t) == Base(file, t') ==> t == t'
  {
    DigitsRoundTrip(k);
    DigitsRoundTrip(k');
    var a, b, n := Indexed(file, t, k), Indexed(file, t', k'), |file| + 1;
    assert a[n..n + 14] == t && b[n..n + 14] == t';
    assert a[n + 15..|a| - 4] == Digits(k) && b[n + 15..|b| - 4] == Digits(k');
    assert Base(file, t)[n..n + 14] == t && Base(file, t')[n..n + 14] == t';
    assert |a| > |Base(file, t')|;
  }

  // ---------- runs ----------

  /** The directory's names, and the sink's current file or the empty string. */
  datatype Dir = Dir(names: set<string>, path: string)

  /** A chunk is written at `now` while the current file measures `size`; the process restarts; a file goes away. */
  datatype Event = Write(size: nat, now: Stamp) | Restart | Remove(name: string)

  /** The current file's size as it is asked for: a file that went away has none. */
  ghost function Seen(d: Dir, size: nat): nat {
    if d.path in d.names then size else 0
  }

  ghost predicate Rotates(limit: nat, d: Dir, size: nat) {
    d.path != "" && Seen(d, size) > limit
  }

  /** A file is opened, and so made, only when the path changes: the stream of a file that went away stays open. */
  ghost function Step(file: string, limit: nat, d: Dir, e: Event): Dir {
    match e
    case Write(size, now) =>
      var path := NextPath(file, limit, d.names, d.path, Seen(d, size), now);
      if path == d.path then d else Dir(d.names + {path}, path)
    case Restart => d.(path := "")
    case Remove(name) => d.(names := d.names - {name})
  }

  ghost predicate IsRun(file: string, limit: nat, ds: seq<Dir>, es: seq<Event>) {
    && |ds| == |es| + 1
    && forall i | 0 <= i < |es| :: ds[i + 1] == Step(file, limit, ds[i], es[i])
  }

  /** Within the limit a write stays with its file and makes none. */
  lemma WithinLimitStays(file: string, limit: nat, d: Dir, size: nat, now: Stamp)
    requires d.path != "" && Seen(d, size) <= limit
    ensures Step(file, limit, d, Write(size, now)) == d
  {
  }

  /**
   * Over any run the current file, while it is there, is left by a write beyond the limit or by a restart, and by nothing
   * else; and the first rotation of a second goes to the name without an index.
   */
  lemma LeftOnlyBeyondLimit(file: string, limit: nat, ds: seq<Dir>, es: seq<Event>, i: nat)
    requires IsRun(file, limit, ds, es) && i < |es| && ds[i].path != ""
    ensures ds[i + 1].path != ds[i].path ==>
              es[i].Restart? || (es[i].Write? && es[i].size > limit && ds[i].path in ds[i].names)
    ensures es[i].Write? && es[i].size > limit && ds[i].path in ds[i].names && Base(file, es[i].now) !in ds[i].names ==>
              ds[i + 1] == Dir(ds[i].names + {file + "_" + es[i].now + ".log"}, file + "_" + es[i].now + ".log")
  {
    if es[i].Write? && Seen(ds[i], es[i].size) <= limit {
      WithinLimitStays(file, limit, ds[i], es[i].size, es[i].now);
    }
  }

  /** Every index in use for a second is below the number of names that a count for that second would find. */
  ghost predicate BelowCount(file: string, t: Stamp, names: set<string>) {
    forall k: nat | Indexed(file, t, k) in names :: k < |Matching(names, Stem(file, t))|
  }

  /** The same once the name without an index is there; without it the next rotation takes that name. */
  ghost predicate Ready(file: string, t: Stamp, names: set<string>) {
    BelowCount(file, t, names + {Base(file, t)})
  }

  lemma CountGrows(names: set<string>, name: string, part: string)
    ensures |Matching(names, part)| <= |Matching(names + {name}, part)|
    ensures name !in names && Contains(name, part) ==> |Matching(names + {name}, part)| == |Matching(names, part)| + 1
  {
    var before, after := Matching(names, part), Matching(names + {name}, part);
    if Contains(name, part) && name !in names {
      assert after == before + {name};
    } else {
      assert after == before;
    }
  }

  lemma RotatedNameIsFresh(file: string, limit: nat, d: Dir, size: nat, t: Stamp)
    requires Ready(file, t, d.names) && Rotates(limit, d, size)
    ensures NextPath(file, limit, d.names, d.path, Seen(d, size), t) !in d.names
  {
    if Base(file, t) in d.names {
      assert d.names + {Base(file, t)} == d.names;
    }
  }

  lemma AddingKeepsReady(file: string, t: Stamp, names: set<string>, name: string)
    requires Ready(file, t, names)
    requires forall k: nat | name == Indexed(file, t, k) ::
               Base(file, t) in names && name !in names && k == |Matching(names, Stem(file, t))|
    ensures Ready(file, t, names + {name})
  {
    var before, after := names + {Base(file, t)}, names + {name} + {Base(file, t)};
    assert after == before + {name};
    CountGrows(before, name, Stem(file, t));
    forall k: nat | Indexed(file, t, k) in after
      ensures k < |Matching(after, Stem(file, t))|
    {
      NamesContainTheirStem(file, t, k);
      if name == Indexed(file, t, k) {
        assert before == names;
      }
    }
  }

  lemma WriteKeepsReady(file: string, limit: nat, d: Dir, size: nat, now: Stamp, t: Stamp)
    requires Ready(file, t, d.names)
    ensures Ready(file, t, Step(file, limit, d, Write(size, now)).names)
  {
    var path := NextPath(file, limit, d.names, d.path, Seen(d, size), now);
    var count := |Matching(d.names, Stem(file, now))|;
    if path != d.path {
      if Rotates(limit, d, size) && now == t {
        RotatedNameIsFresh(file, limit, d, size, t);
      }
      forall k: nat | path == Indexed(file, t, k)
        ensures now == t && k == count && Base(file, t) in d.names && path !in d.names
      {
        NamesAreDistinct(file, t, k, now, count);
      }
      AddingKeepsReady(file, t, d.names, path);
    }
  }

  lemma RemoveKeepsReady(file: string, t: Stamp, names: set<string>, name: string)
    requires Ready(file, t, names) && !Contains(name, Stem(file, t))
    ensures Ready(file, t, names - {name})
  {
    NamesContainTheirStem(file, t, 0);
    var before, after := names + {Base(file, t)}, names - {name} + {Base(file, t)};
    assert after == before - {name};
    assert Matching(after, Stem(file, t)) == Matching(before, Stem(file, t));
  }

  /** No file that a count for the second `t` would find goes away before the event `n`. */
  ghost predicate Untouched(file: string, t: Stamp, es: seq<Event>, n: nat)
    requires n <= |es|
  {
    forall i | 0 <= i < n && es[i].Remove? :: !Contains(es[i].name, Stem(file, t))
  }

  lemma {:induction false} RunKeepsReady(file: string, limit: nat, ds: seq<Dir>, es: seq<Event>, n: nat, t: Stamp)
    requires IsRun(file, limit, ds, es) && n <= |es| && Ready(file, t, ds[0].names) && Untouched(file, t, es, n)
    ensures Ready(file, t, ds[n].names)
  {
    if n > 0 {
      RunKeepsReady(file, limit, ds, es, n - 1, t);
      match es[n - 1]
      case Write(size, now) => WriteKeepsReady(file, limit, ds[n - 1], size, now, t);
      case Restart =>
      case Remove(name) => RemoveKeepsReady(file, t, ds[n - 1].names, name);
    }
  }

  lemma EmptyIsReady(file: string, t: Stamp)
    ensures Ready(file, t, {})
  {
    forall k: nat | Indexed(file, t, k) in {} + {Base(file, t)}
      ensures false
    {
      NamesAreDistinct(file, t, k, t, k);
    }
  }

  /**
   * Over any number of restarts and removals, a rotation from an empty directory reaches a new file unless a name of
   * its own second has gone away before: removing files of other seconds never matters.
   */
  lemma RotationIsFresh(file: string, limit: nat, ds: seq<Dir>, es: seq<Event>, n: nat)
    requires IsRun(file, limit, ds, es) && ds[0].names == {}
    requires n < |es| && es[n].Write? && Rotates(limit, ds[n], es[n].size) && Untouched(file, es[n].now, es, n)
    ensures ds[n + 1].path !in ds[n].names
  {
    var t := es[n].now;
    EmptyIsReady(file, t);
    RunKeepsReady(file, limit, ds, es, n, t);
    RotatedNameIsFresh(file, limit, ds[n], es[n].size, t);
  }

  /**
   * Once the current file has gone away no later write makes it or another anew: up to the next restart every chunk goes
   * to a file that no name leads to.
   */
  lemma {:induction false} GoneStaysGone(file: string, limit: nat, ds: seq<Dir>, es: seq<Event>, n: nat)
    requires IsRun(file, limit, ds, es) && n <= |es| && ds[0].path != "" && ds[0].path !in ds[0].names
    requires forall i | 0 <= i < n :: !es[i].Restart?
    ensures ds[n].path == ds[0].path && ds[n].names <= ds[0].names
  {
    if n > 0 {
      GoneStaysGone(file, limit, ds, es, n - 1);
    }
  }

  /** The event rotates in the second `t`, from `d`, to a file that is there already. */
  ghost predicate Collides(limit: nat, t: Stamp, d: Dir, e: Event, d': Dir) {
    e.Write? && e.now == t && Rotates(limit, d, e.size) && d'.path in d.names
  }

  /** Every rotation of the run in the second `t` reaches a new file. */
  ghost predicate AllFresh(limit: nat, t: Stamp, ds: seq<Dir>, es: seq<Event>)
    requires |ds| == |es| + 1
  {
    forall i | 0 <= i < |es| :: !Collides(limit, t, ds[i], es[i], ds[i + 1])
  }

  ghost predicate IsUntouchedRun(file: string, limit: nat, t: Stamp, d: Dir, ds: seq<Dir>, es: seq<Event>) {
    IsRun(file, limit, ds, es) && ds[0] == d && Untouched(file, t, es, |es|)
  }

  /** Rotating on and on within the second ends at an index that is in use at or beyond the count. */
  lemma {:induction false} RotateIntoCollision(file: string, limit: nat, t: Stamp, d: Dir, k: nat)
    returns (ds: seq<Dir>, es: seq<Event>)
    requires d.path != "" && d.path in d.names && Base(file, t) in d.names && Indexed(file, t, k) in d.names
    requires k >= |Matching(d.names, Stem(file, t))|
    ensures IsUntouchedRun(file, limit, t, d, ds, es) && !AllFresh(limit, t, ds, es)
    decreases k - |Matching(d.names, Stem(file, t))|
  {
    var count, w := |Matching(d.names, Stem(file, t))|, Write(limit + 1, t);
    var next := Indexed(file, t, count);
    var d' := Step(file, limit, d, w);
    if next in d.names {
      ds, es := [d, d'], [w];
      assert Collides(limit, t, ds[0], es[0], ds[1]);
    } else {
      CountGrows(d.names, next, Stem(file, t));
      NamesContainTheirStem(file, t, count);
      ds, es := RotateIntoCollision(file, limit, t, d', k);
      ds, es := RotateFirst(file, limit, t, d, ds, es);
    }
  }

  lemma RunFirst(file: string, limit: nat, d: Dir, e: Event, ds: seq<Dir>, es: seq<Event>)
    requires IsRun(file, limit, ds, es) && ds[0] == Step(file, limit, d, e)
    ensures IsRun(file, limit, [d] + ds, [e] + es)
  {
    hide Step;
    var ds', es' := [d] + ds, [e] + es;
    forall i | 0 <= i < |es'| ensures ds'[i + 1] == Step(file, limit, ds'[i], es'[i]) {
      if i > 0 {
        assert ds'[i + 1] == ds[i] && ds'[i] == ds[i - 1] && es'[i] == es[i - 1];
      }
    }
  }

  lemma UntouchedFirst(file: string, t: Stamp, e: Event, es: seq<Event>)
    requires Untouched(file, t, es, |es|) && e.Write?
    ensures Untouched(file, t, [e] + es, |es| + 1)
  {
    hide Contains, Stem;
    assert forall i | 0 < i < |es| + 1 :: ([e] + es)[i] == es[i - 1];
  }

  lemma CollidesLater(limit: nat, t: Stamp, d: Dir, e: Event, ds: seq<Dir>, es: seq<Event>)
    requires |ds| == |es| + 1 && !AllFresh(limit, t, ds, es)
    ensures !AllFresh(limit, t, [d] + ds, [e] + es)
  {
    hide Collides;
    var ds', es' := [d] + ds, [e] + es;
    var i :| 0 <= i < |es| && Collides(limit, t, ds[i], es[i], ds[i + 1]);
    assert es'[i + 1] == es[i] && ds'[i + 1] == ds[i] && ds'[i + 2] == ds[i + 1];
  }

  lemma RotateFirst(file: string, limit: nat, t: Stamp, d: Dir, ds: seq<Dir>, es: seq<Event>)
    returns (ds': seq<Dir>, es': seq<Event>)
    requires IsUntouchedRun(file, limit, t, Step(file, limit, d, Write(limit + 1, t)), ds, es)
    requires !AllFresh(limit, t, ds, es)
    ensures IsUntouchedRun(file, limit, t, d, ds', es') && !AllFresh(limit, t, ds', es')
  {
    hide Step, Untouched, AllFresh;
    var w := Write(limit + 1, t);
    RunFirst(file, limit, d, w, ds, es);
    UntouchedFirst(file, t, w, es);
    CollidesLater(limit, t, d, w, ds, es);
    ds', es' := [d] + ds, [w] + es;
  }

  /**
   * What the directory must look like, exactly, for all further rotations of a second to reach new files, whatever
   * else is written, restarted and removed meanwhile but the names of that second: every index in use is below the
   * number of names a count finds.
   */
  lemma FreshForeverIff(file: string, limit: nat, t: Stamp, d: Dir)
    requires d.path != "" && d.path in d.names
    ensures (forall ds: seq<Dir>, es: seq<Event> | IsUntouchedRun(file, limit, t, d, ds, es) ::
               AllFresh(limit, t, ds, es))
            <==> Ready(file, t, d.names)
  {
    if Ready(file, t, d.names) {
      forall ds: seq<Dir>, es: seq<Event> | IsUntouchedRun(file, limit, t, d, ds, es)
        ensures AllFresh(limit, t, ds, es)
      {
        ReadyRunIsFresh(file, limit, t, ds, es);
      }
    } else {
      var ds, es := UnreadyCollides(file, limit, t, d);
    }
  }

  lemma ReadyRunIsFresh(file: string, limit: nat, t: Stamp, ds: seq<Dir>, es: seq<Event>)
    requires IsRun(file, limit, ds, es) && Ready(file, t, ds[0].names) && Untouched(file, t, es, |es|)
    ensures AllFresh(limit, t, ds, es)
  {
    forall i | 0 <= i < |es|
      ensures !Collides(limit, t, ds[i], es[i], ds[i + 1])
    {
      if es[i].Write? && es[i].now == t && Rotates(limit, ds[i], es[i].size) {
        RunKeepsReady(file, limit, ds, es, i, t);
        RotatedNameIsFresh(file, limit, ds[i], es[i].size, t);
      }
    }
  }

  lemma UnreadyCollides(file: string, limit: nat, t: Stamp, d: Dir) returns (ds: seq<Dir>, es: seq<Event>)
    requires d.path != "" && d.path in d.names && !Ready(file, t, d.names)
    ensures IsUntouchedRun(file, limit, t, d, ds, es) && !AllFresh(limit, t, ds, es)
  {
    var k: nat :| Indexed(file, t, k) in d.names + {Base(file, t)}
                  && k >= |Matching(d.names + {Base(file, t)}, Stem(file, t))|;
    NamesAreDistinct(file, t, k, t, k);
    if Base(file, t) in d.names {
      assert d.names + {Base(file, t)} == d.names;
      ds, es := RotateIntoCollision(file, limit, t, d, k);
    } else {
      ds, es := RotateIntoCollision(file, limit, t, Step(file, limit, d, Write(limit + 1, t)), k);
      ds, es := RotateFirst(file, limit, t, d, ds, es);
    }
  }

  /** Rotating within one second, when every name in the directory carries that second's stem. */
  lemma RotationCounts(file: string, limit: nat, names: set<string>, path: string, t: Stamp)
    requires path != "" && path in names && Base(file, t) in names
    requires forall name | name in names :: Contains(name, Stem(file, t))
    ensures Step(file, limit, Dir(names, path), Write(limit + 1, t))
         == Dir(names + {Indexed(file, t, |names|)}, Indexed(file, t, |names|))
  {
    assert Matching(names, Stem(file, t)) == names;
    assert path == Indexed(file, t, |names|) ==> names + {path} == names;
  }

  /** Three files within one second, the first indexed one deleted, and one more rotation. */
  lemma DeletionSteps(file: string, limit: nat, t: Stamp, j: nat, k: nat, base: string, one: string, two: string)
    requires j == 1 && k == 2
    requires base == Base(file, t) && one == Indexed(file, t, j) && two == Indexed(file, t, k)
    ensures base != "" && one != ""
    ensures Step(file, limit, Dir({}, ""), Write(0, t)) == Dir({base}, base)
    ensures Step(file, limit, Dir({base}, base), Write(limit + 1, t)) == Dir({base, one}, one)
    ensures Step(file, limit, Dir({base, one}, one), Write(limit + 1, t)) == Dir({base, one, two}, two)
    ensures Step(file, limit, Dir({base, one, two}, two), Remove(one)) == Dir({base, two}, two)
    ensures Step(file, limit, Dir({base, two}, two), Write(limit + 1, t)) == Dir({base, two}, two) && two != ""
  {
    NamesAreDistinct(file, t, j, t, k);
    NamesAreDistinct(file, t, k, t, j);
    NamesContainTheirStem(file, t, j);
    NamesContainTheirStem(file, t, k);
    CountsOfNames(base, one, two);
    RotationCounts(file, limit, {base}, base, t);
    RotationCounts(file, limit, {base, one}, one, t);
    RotationCounts(file, limit, {base, two}, two, t);
  }

  /** One deletion is enough to make the count name a file that is still there, which is then appended to. */
  lemma DeletionReusesAName(file: string, limit: nat, t: Stamp) returns (ds: seq<Dir>, es: seq<Event>)
    ensures IsRun(file, limit, ds, es) && |es| == 5
    ensures es == [Write(0, t), Write(limit + 1, t), Write(limit + 1, t), Remove(ds[2].path), Write(limit + 1, t)]
    ensures Rotates(limit, ds[4], limit + 1) && ds[5].path in ds[4].names
  {
    hide NextPath, Stem, Contains, Indexed, Base;
    var k: nat :| k == 1;
    var base, one, two := Base(file, t), Indexed(file, t, k), Indexed(file, t, k + 1);
    var w := Write(limit + 1, t);
    es := [Write(0, t), w, w, Remove(one), w];
    ds := [Dir({}, ""), Dir({base}, base), Dir({base, one}, one), Dir({base, one, two}, two), Dir({base, two}, two),
           Dir({base, two}, two)];
    DeletionSteps(file, limit, t, k, k + 1, base, one, two);
  }

  lemma CountsOfNames(a: string, b: string, c: string)
    requires a != b && b != c && a != c
    ensures |{a}| == 1 && |{a, b}| == 2 && |{a, c}| == 2
    ensures {} + {a} == {a} && {a} + {b} == {a, b} && {a, b} + {c} == {a, b, c}
    ensures {a, b, c} - {b} == {a, c} && {a, c} + {c} == {a, c}
  {
  }

  // ---------- the sink's part ----------

  function Names(listing: seq<string>): set<string> {
    set name | name in listing
  }

  class LogFiles {
    const file: string
    const limit: nat
    var path: string
    ghost var names: set<string> // the directory

    ghost function State(): Dir
      reads this
    {
      Dir(names, path)
    }

    constructor (file: string, limit: nat, ghost names: set<string>)
      ensures State() == Dir(names, "") && this.file == file && this.limit == limit
    {
      this.file, this.limit, this.path, this.names := file, limit, "", names;
    }

    /** The loop over the directory; `listing` is the order the iterator happens to give. */
    method CountMatches(listing: seq<string>, stem: string) returns (index: nat)
      requires forall i, j | 0 <= i < j < |listing| :: listing[i] != listing[j]
      ensures index == |Matching(Names(listing), stem)|
    {
      index := 0;
      for k := 0 to |listing|
        invariant index == |Matching(Names(listing[..k]), stem)|
      {
        CountGrows(Names(listing[..k]), listing[k], stem);
        assert Names(listing[..k + 1]) == Names(listing[..k]) + {listing[k]};
        if Contains(listing[k], stem) {
          index := index + 1;
        } else {
          assert Matching(Names(listing[..k + 1]), stem) == Matching(Names(listing[..k]), stem);
        }
      }
      assert listing[..|listing|] == listing;
    }

    /** `GetFilePath_`, with the opening of the file it names. */
    method OpenNext(size: nat, now: Stamp, listing: seq<string>)
      requires forall i, j | 0 <= i < j < |listing| :: listing[i] != listing[j]
      requires Names(listing) == names && (path !in names ==> size == 0)
      modifies this
      ensures State() == Step(file, limit, old(State()), Write(size, now))
      ensures old(path) == "" ==> path == file + "_" + now + ".log"
      ensures old(path) != "" && size <= limit ==> path == old(path) && names == old(names)
      ensures old(path) != "" && size > limit && file + "_" + now + ".log" !in old(names) ==>
                path == file + "_" + now + ".log"
      ensures old(path) != "" && size > limit && file + "_" + now + ".log" in old(names) ==>
                path == file + "_" + now + "_" + Digits(|Matching(old(names), file + "_" + now)|) + ".log"
      ensures names == if path == old(path) then old(names) else old(names) + {path}
    {
      var before := path;
      if path == "" {
        path := Base(file, now);
      } else if size > limit {
        var base := Base(file, now);
        if base in listing {
          var index := CountMatches(listing, Stem(file, now));
          path := Indexed(file, now, index);
        } else {
          path := base;
        }
      }
      if path != before {
        names := names + {path};
      }
    }
  }
}
