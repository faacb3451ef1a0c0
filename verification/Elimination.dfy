/** Removal of old log files beyond the total size (logger/sinks/effective_sink.cc:215-237). */
module Elimination {
  import Decimals
  import R = Rotation

  datatype LogFile = LogFile(name: string, written: int, size: nat)

  /** A path's extension is ".log"; a name that is nothing but ".log" has no extension. */
  predicate IsLog(name: string) {
    |name| > 4 && name[|name| - 4..] == ".log"
  }

  function Logs(listing: seq<LogFile>): (logs: seq<LogFile>) {
    if listing == [] then []
    else
      var last := listing[|listing| - 1];
      Logs(listing[..|listing| - 1]) + if IsLog(last.name) then [last] else []
  }

  /** A name with the extension: something, and ".log" behind it. */
  ghost predicate HasExtension(name: string) {
    exists stem: string :: stem != "" && name == stem + ".log"
  }

  lemma IsLogIff(name: string)
    ensures IsLog(name) <==> HasExtension(name)
  {
    if IsLog(name) {
      assert name == name[..|name| - 4] + ".log";
    }
    if HasExtension(name) {
      var stem :| stem != "" && name == stem + ".log";
      assert name[|stem|..] == ".log";
    }
  }

  /** Every name the sink gives a log file has the extension; the two mapped buffers beside them do not. */
  lemma OwnNames(file: string, now: R.Stamp, k: nat)
    ensures HasExtension(R.Base(file, now)) && HasExtension(R.Indexed(file, now, k))
    ensures !HasExtension("master_mmap") && !HasExtension("slave_mmap")
  {
    assert R.Base(file, now) == R.Stem(file, now) + ".log";
    assert R.Indexed(file, now, k) == (R.Stem(file, now) + "_" + Decimals.Digits(k)) + ".log";
    IsLogIff("master_mmap");
    IsLogIff("slave_mmap");
  }

  /** All entries with the extension, as often as they are listed, and no others. */
  lemma {:induction false} LogsCount(listing: seq<LogFile>, f: LogFile)
    ensures multiset(Logs(listing))[f] == if HasExtension(f.name) then multiset(listing)[f] else 0
  {
    if listing != [] {
      var before, last := listing[..|listing| - 1], listing[|listing| - 1];
      LogsCount(before, f);
      IsLogIff(last.name);
      assert listing == before + [last];
    }
  }

  function Sum(files: seq<LogFile>): nat {
    if files == [] then 0 else Sum(files[..|files| - 1]) + files[|files| - 1].size
  }

  predicate NewestFirst(files: seq<LogFile>) {
    forall i, j | 0 <= i < j < |files| :: files[i].written >= files[j].written
  }

  /** One of the orders the sort may leave: write times that tie come in any order. */
  predicate IsOrder(order: seq<LogFile>, files: seq<LogFile>) {
    NewestFirst(order) && multiset(order) == multiset(files)
  }

  /** The first `k` files stay: none of them was reached with `total` used up, and the next one is. */
  predicate IsCut(order: seq<LogFile>, total: nat, k: nat) {
    && k <= |order|
    && Room(order, total, k)
    && (k < |order| ==> Sum(order[..k]) >= total)
  }

  predicate Room(order: seq<LogFile>, total: nat, k: nat)
    requires k <= |order|
  {
    forall j | 0 <= j < k :: Sum(order[..j]) < total
  }

  // ---------- the order ----------

  function Insert(f: LogFile, order: seq<LogFile>): seq<LogFile> {
    if order == [] || order[|order| - 1].written >= f.written then order + [f]
    else Insert(f, order[..|order| - 1]) + [order[|order| - 1]]
  }

  lemma {:induction false} InsertKeepsFiles(f: LogFile, order: seq<LogFile>)
    ensures multiset(Insert(f, order)) == multiset(order) + multiset{f}
  {
    if order != [] && order[|order| - 1].written < f.written {
      InsertKeepsFiles(f, order[..|order| - 1]);
      assert order == order[..|order| - 1] + [order[|order| - 1]];
    }
  }

  lemma {:induction false} InsertKeepsOrder(f: LogFile, order: seq<LogFile>, bound: int)
    requires NewestFirst(order) && f.written >= bound && forall i | 0 <= i < |order| :: order[i].written >= bound
    ensures NewestFirst(Insert(f, order)) && forall i | 0 <= i < |Insert(f, order)| :: Insert(f, order)[i].written >= bound
  {
    if order != [] && order[|order| - 1].written < f.written {
      InsertKeepsOrder(f, order[..|order| - 1], order[|order| - 1].written);
    }
  }

  /** Whatever the directory holds, an order exists. */
  lemma {:induction false} SomeOrderExists(files: seq<LogFile>) returns (order: seq<LogFile>)
    ensures IsOrder(order, files)
  {
    order := [];
    if files != [] {
      SplitAt(files, |files| - 1);
      assert files[..|files| - 1] + files[|files|..] == files[..|files| - 1];
      order := SomeOrderExists(files[..|files| - 1]);
      var f := files[|files| - 1];
      InsertKeepsFiles(f, order);
      InsertKeepsOrder(f, order, if order == [] || f.written < order[|order| - 1].written then f.written
                                 else order[|order| - 1].written);
      order := Insert(f, order);
    }
  }

  lemma SumMiddle(a: seq<LogFile>, f: LogFile, b: seq<LogFile>)
    ensures Sum(a + [f] + b) == Sum(a + b) + f.size
  {
    var s := a + [f] + b;
    if b == [] {
      assert s[..|a|] == a;
      assert a + b == a;
    } else {
      var b' := b[..|b| - 1];
      assert s[..|s| - 1] == a + [f] + b';
      assert (a + b)[..|a + b| - 1] == a + b';
      SumMiddle(a, f, b');
    }
  }

  lemma SplitAt(files: seq<LogFile>, i: nat)
    requires i < |files|
    ensures files == files[..i] + [files[i]] + files[i + 1..]
    ensures multiset(files) == multiset(files[..i] + files[i + 1..]) + multiset{files[i]}
  {
    assert files == files[..i] + [files[i]] + files[i + 1..];
  }

  lemma TakeOneOut(a: multiset<LogFile>, b: multiset<LogFile>, f: LogFile)
    requires a + multiset{f} == b + multiset{f}
    ensures a == b
  {
    assert a == (a + multiset{f}) - multiset{f};
    assert b == (b + multiset{f}) - multiset{f};
  }

  lemma WithoutLast(a: seq<LogFile>, b: seq<LogFile>) returns (i: nat)
    requires a != [] && multiset(a) == multiset(b)
    ensures i < |b| && b[i] == a[|a| - 1]
    ensures multiset(a[..|a| - 1]) == multiset(b[..i] + b[i + 1..])
  {
    var n := |a| - 1;
    SplitAt(a, n);
    assert a[..n] + a[n + 1..] == a[..n];
    assert a[n] in multiset(b);
    i :| 0 <= i < |b| && b[i] == a[n];
    SplitAt(b, i);
    TakeOneOut(multiset(a[..n]), multiset(b[..i] + b[i + 1..]), a[n]);
  }

  lemma {:induction false} SumIsOrderless(a: seq<LogFile>, b: seq<LogFile>)
    requires multiset(a) == multiset(b)
    ensures Sum(a) == Sum(b)
  {
    assert |multiset(a)| == |multiset(b)|;
    if a != [] {
      var i := WithoutLast(a, b);
      SumIsOrderless(a[..|a| - 1], b[..i] + b[i + 1..]);
      SumMiddle(b[..i], b[i], b[i + 1..]);
      assert b == b[..i] + [b[i]] + b[i + 1..];
    }
  }

  lemma {:induction false} SumGrows(order: seq<LogFile>, i: nat, j: nat)
    requires i <= j <= |order|
    ensures Sum(order[..i]) <= Sum(order[..j])
  {
    if i < j {
      SumGrows(order, i, j - 1);
      assert order[..j][..j - 1] == order[..j - 1];
    }
  }

  // ---------- what a run keeps ----------

  /**
   * All kept files but the oldest add up to less than the limit, so the kept files exceed it by less than one file;
   * every removed file had at least the limit in newer ones; nothing kept is older than anything removed.
   */
  lemma KeptIsNewestWithinTotal(order: seq<LogFile>, total: nat, k: nat)
    requires NewestFirst(order) && IsCut(order, total, k)
    ensures k > 0 ==> Sum(order[..k - 1]) < total && Sum(order[..k]) < total + order[k - 1].size
    ensures forall j | k <= j < |order| :: Sum(order[..j]) >= total
    ensures forall i, j | 0 <= i < k <= j < |order| :: order[i].written >= order[j].written
  {
    if k > 0 {
      assert order[..k][..k - 1] == order[..k - 1];
    }
    forall j | k <= j < |order|
      ensures Sum(order[..j]) >= total
    {
      SumGrows(order, k, j);
    }
  }

  /** The newest file survives exactly when the limit is positive. */
  lemma NewestSurvivesIff(order: seq<LogFile>, total: nat, k: nat)
    requires order != [] && IsCut(order, total, k)
    ensures k > 0 <==> total > 0
  {
    assert Sum(order[..0]) == 0;
  }

  // ---------- the file the sink is still writing ----------

  function Where(files: seq<LogFile>, p: LogFile -> bool): (r: seq<LogFile>) {
    if files == [] then []
    else
      var last := files[|files| - 1];
      Where(files[..|files| - 1], p) + if p(last) then [last] else []
  }

  /** Files that some order of the sort puts ahead of `f`: the newer ones and those it ties with. */
  function MayPrecede(f: LogFile): LogFile -> bool {
    (x: LogFile) => x != f && x.written >= f.written
  }

  function Older(f: LogFile): LogFile -> bool {
    (x: LogFile) => x.written < f.written
  }

  lemma {:induction false} WhereCounts(files: seq<LogFile>, p: LogFile -> bool, x: LogFile)
    ensures multiset(Where(files, p))[x] == if p(x) then multiset(files)[x] else 0
  {
    if files != [] {
      var before, last := files[..|files| - 1], files[|files| - 1];
      WhereCounts(before, p, x);
      assert files == before + [last];
    }
  }

  lemma WhereIsOrderless(a: seq<LogFile>, b: seq<LogFile>, p: LogFile -> bool)
    requires multiset(a) == multiset(b)
    ensures Sum(Where(a, p)) == Sum(Where(b, p))
  {
    forall x ensures multiset(Where(a, p))[x] == multiset(Where(b, p))[x] {
      WhereCounts(a, p, x);
      WhereCounts(b, p, x);
    }
    assert multiset(Where(a, p)) == multiset(Where(b, p));
    SumIsOrderless(Where(a, p), Where(b, p));
  }

  lemma SumLast(files: seq<LogFile>, f: LogFile)
    ensures Sum(files + [f]) == Sum(files) + f.size
  {
    assert (files + [f])[..|files|] == files;
  }

  /** All of a prefix that passes counts among all that passes. */
  lemma {:induction false} PrefixWithinWhere(files: seq<LogFile>, p: LogFile -> bool, n: nat)
    requires n <= |files| && forall i | 0 <= i < n :: p(files[i])
    ensures Sum(files[..n]) <= Sum(Where(files, p))
  {
    hide Sum;
    if files == [] {
      assert files[..n] == Where(files, p);
    } else {
      var before, last := files[..|files| - 1], files[|files| - 1];
      SumLast(Where(before, p), last);
      if n < |files| {
        PrefixWithinWhere(before, p, n);
        assert before[..n] == files[..n];
        assert Where(before, p) + [] == Where(before, p);
      } else {
        PrefixWithinWhere(before, p, n - 1);
        SumLast(before, last);
        assert before[..n - 1] == before && files[..n] == before + [last];
      }
    }
  }

  lemma Occurs(files: seq<LogFile>, f: LogFile) returns (i: nat)
    requires f in multiset(files)
    ensures i < |files| && files[i] == f
  {
    i :| 0 <= i < |files| && files[i] == f;
  }

  /** However the sort breaks ties, the run keeps `f`. */
  ghost predicate AlwaysKept(files: seq<LogFile>, total: nat, f: LogFile) {
    forall order, k: nat | IsOrder(order, files) && IsCut(order, total, k) :: f in order[..k]
  }

  lemma RoomAheadKeeps(files: seq<LogFile>, total: nat, f: LogFile, order: seq<LogFile>, k: nat)
    requires multiset(files)[f] == 1 && Sum(Where(files, MayPrecede(f))) < total
    requires IsOrder(order, files) && IsCut(order, total, k)
    ensures f in order[..k]
  {
    assert f in multiset(order);
    var n := Occurs(order, f);
    forall i | 0 <= i < n ensures MayPrecede(f)(order[i]) {
      if order[i] == f {
        TwoCount(order, f, i, n);
      }
    }
    PrefixWithinWhere(order, MayPrecede(f), n);
    WhereIsOrderless(order, files, MayPrecede(f));
    if k <= n {
      SumGrows(order, k, n);
    }
    assert order[..k][n] == f;
  }

  lemma TwoCount(order: seq<LogFile>, f: LogFile, i: nat, n: nat)
    requires i < n < |order| && order[i] == f && order[n] == f
    ensures multiset(order)[f] >= 2
  {
    assert order == order[..n] + order[n..];
    assert order[..n][i] == f && order[n..][0] == f;
  }

  lemma JoinedOrder(ahead: seq<LogFile>, f: LogFile, behind: seq<LogFile>)
    requires NewestFirst(ahead) && NewestFirst(behind)
    requires forall i | 0 <= i < |ahead| :: ahead[i].written >= f.written
    requires forall i | 0 <= i < |behind| :: behind[i].written < f.written
    ensures NewestFirst(ahead + [f] + behind)
  {
  }

  /** What may precede a file listed once, the file, and what is older, make up the directory. */
  lemma ThreeParts(files: seq<LogFile>, f: LogFile)
    requires multiset(files)[f] == 1
    ensures multiset(Where(files, MayPrecede(f))) + multiset{f} + multiset(Where(files, Older(f))) == multiset(files)
  {
    var ahead, behind := multiset(Where(files, MayPrecede(f))), multiset(Where(files, Older(f)));
    forall x ensures (ahead + multiset{f} + behind)[x] == multiset(files)[x] {
      WhereCounts(files, MayPrecede(f), x);
      WhereCounts(files, Older(f), x);
    }
  }

  lemma WherePasses(files: seq<LogFile>, p: LogFile -> bool, r: seq<LogFile>)
    requires multiset(r) == multiset(Where(files, p))
    ensures forall i | 0 <= i < |r| :: p(r[i])
  {
    forall i | 0 <= i < |r| ensures p(r[i]) {
      assert r[i] in multiset(r);
      WhereCounts(files, p, r[i]);
    }
  }

  /** An order with everything ahead of `f` that may be. */
  lemma SomeOrderDelays(files: seq<LogFile>, f: LogFile) returns (order: seq<LogFile>, n: nat)
    requires multiset(files)[f] == 1
    ensures IsOrder(order, files) && n < |order| && Sum(order[..n]) == Sum(Where(files, MayPrecede(f)))
    ensures f !in order[..n]
  {
    hide Where, Sum;
    var ahead := SomeOrderExists(Where(files, MayPrecede(f)));
    var behind := SomeOrderExists(Where(files, Older(f)));
    order, n := ahead + [f] + behind, |ahead|;
    assert order[..n] == ahead;
    SumIsOrderless(ahead, Where(files, MayPrecede(f)));
    ThreeParts(files, f);
    assert multiset(order) == multiset(ahead) + multiset{f} + multiset(behind);
    WherePasses(files, MayPrecede(f), ahead);
    WherePasses(files, Older(f), behind);
    JoinedOrder(ahead, f, behind);
  }

  /**
   * A file that the directory lists once, such as the one the sink is still appending to, survives every run, however
   * ties are sorted, if and only if all other files that are not older than it add up to less than the limit.
   */
  lemma AlwaysKeptIff(files: seq<LogFile>, total: nat, f: LogFile)
    requires multiset(files)[f] == 1
    ensures AlwaysKept(files, total, f) <==> Sum(Where(files, MayPrecede(f))) < total
  {
    if Sum(Where(files, MayPrecede(f))) < total {
      forall order, k: nat | IsOrder(order, files) && IsCut(order, total, k)
        ensures f in order[..k]
      {
        RoomAheadKeeps(files, total, f, order, k);
      }
    } else {
      var order, n := SomeOrderDelays(files, f);
      var k := Cut(order, total);
      assert k <= n;
      assert order[..k] == order[..n][..k];
    }
  }

  // ---------- a second run ----------

  /** A run over `order` removes nothing exactly when all files but the last leave room. */
  lemma NothingRemovedIff(order: seq<LogFile>, total: nat, k: nat)
    requires order != [] && IsCut(order, total, k)
    ensures k == |order| <==> Sum(order[..|order| - 1]) < total
  {
    if Sum(order[..|order| - 1]) < total && k < |order| {
      SumGrows(order, k, |order| - 1);
    }
  }

  /** Files that tie for the oldest can each come last. */
  lemma OldestCanComeLast(kept: seq<LogFile>, i: nat) returns (order: seq<LogFile>)
    requires NewestFirst(kept) && i < |kept| && kept[i].written == kept[|kept| - 1].written
    ensures IsOrder(order, kept) && order[|order| - 1] == kept[i] && |order| == |kept|
  {
    var others := kept[..i] + kept[i + 1..];
    order := others + [kept[i]];
    SplitAt(kept, i);
    forall a, b | 0 <= a < b < |order|
      ensures order[a].written >= order[b].written
    {
      assert order[a] == if a < i then kept[a] else kept[a + 1];
      assert order[b] == if b < i then kept[b] else if b < |kept| - 1 then kept[b + 1] else kept[i];
    }
  }

  /** However the sort breaks ties, the next run removes nothing. */
  ghost predicate Stable(kept: seq<LogFile>, total: nat) {
    forall order, k: nat | IsOrder(order, kept) && IsCut(order, total, k) :: k == |order|
  }

  lemma SameLength(a: seq<LogFile>, b: seq<LogFile>)
    requires multiset(a) == multiset(b)
    ensures |a| == |b|
  {
    assert |multiset(a)| == |multiset(b)|;
  }

  lemma LastIsOldest(kept: seq<LogFile>, order: seq<LogFile>) returns (i: nat)
    requires kept != [] && NewestFirst(kept) && IsOrder(order, kept)
    ensures |order| == |kept| && i < |kept| && kept[i] == order[|order| - 1]
    ensures kept[i].written == kept[|kept| - 1].written
  {
    SameLength(order, kept);
    assert order[|order| - 1] in multiset(order);
    i := Occurs(kept, order[|order| - 1]);
    assert kept[|kept| - 1] in multiset(kept);
    var j := Occurs(order, kept[|kept| - 1]);
  }

  lemma OrderRemovesNothing(kept: seq<LogFile>, total: nat, order: seq<LogFile>, k: nat)
    requires kept != [] && NewestFirst(kept) && IsOrder(order, kept) && IsCut(order, total, k)
    requires forall i | 0 <= i < |kept| && kept[i].written == kept[|kept| - 1].written ::
               Sum(kept) - kept[i].size < total
    ensures k == |order|
  {
    var i := LastIsOldest(kept, order);
    SumIsOrderless(order, kept);
    NothingRemovedIff(order, total, k);
  }

  lemma OrderOfOldestRemoves(kept: seq<LogFile>, total: nat, i: nat)
    requires NewestFirst(kept) && i < |kept| && kept[i].written == kept[|kept| - 1].written
    requires Sum(kept) - kept[i].size >= total
    ensures !Stable(kept, total)
  {
    var order := OldestCanComeLast(kept, i);
    SumIsOrderless(order, kept);
    var k := Cut(order, total);
    NothingRemovedIff(order, total, k);
    assert k != |order|;
  }

  /**
   * A second run removes nothing, whatever order ties come in, exactly when each file that ties for the oldest could
   * be the one that exceeds the limit.
   */
  lemma SecondRunIsQuietIff(kept: seq<LogFile>, total: nat)
    requires kept != [] && NewestFirst(kept)
    ensures Stable(kept, total) <==>
            forall i | 0 <= i < |kept| && kept[i].written == kept[|kept| - 1].written ::
              Sum(kept) - kept[i].size < total
  {
    if forall i | 0 <= i < |kept| && kept[i].written == kept[|kept| - 1].written :: Sum(kept) - kept[i].size < total {
      forall order, k: nat | IsOrder(order, kept) && IsCut(order, total, k)
        ensures k == |order|
      {
        OrderRemovesNothing(kept, total, order, k);
      }
    } else {
      var i :| 0 <= i < |kept| && kept[i].written == kept[|kept| - 1].written && Sum(kept) - kept[i].size >= total;
      OrderOfOldestRemoves(kept, total, i);
    }
  }

  /** With distinct write times a second run straight after the first removes nothing. */
  lemma SecondRunRemovesNothing(order: seq<LogFile>, total: nat, k: nat)
    requires NewestFirst(order) && IsCut(order, total, k) && k > 0
    requires forall i, j | 0 <= i < j < |order| :: order[i].written != order[j].written
    ensures Stable(order[..k], total)
  {
    KeptIsNewestWithinTotal(order, total, k);
    SecondRunIsQuietIff(order[..k], total);
    assert forall i | 0 <= i < k - 1 :: order[..k][i].written != order[..k][k - 1].written;
    assert order[..k][..k - 1] == order[..k - 1];
  }

  lemma SumOfTwo(a: LogFile, b: LogFile)
    ensures Sum([a, b]) == a.size + b.size && Sum([a]) == a.size
  {
    SumMiddle([], a, []);
    SumMiddle([a], b, []);
    assert [a] + [b] + [] == [a, b] && [] + [a] + [] == [a] && [a] + [] == [a];
  }

  /** With a tie it can: the larger of two files sorts first the second time and uses up the limit. */
  lemma TiedSecondRunRemoves() returns (order: seq<LogFile>)
    ensures NewestFirst(order) && IsCut(order, 50, 2) && |order| == 2 && !Stable(order, 50)
  {
    var small, big := LogFile("a.log", 7, 1), LogFile("b.log", 7, 100);
    order := [small, big];
    assert order[..0] == [] && order[..1] == [small];
    SumOfTwo(small, big);
    OrderOfOldestRemoves(order, 50, 0);
  }

  // ---------- the loops ----------

  function Cut(order: seq<LogFile>, total: nat): (k: nat)
    ensures IsCut(order, total, k)
  {
    CutFrom(order, total, 0)
  }

  function CutFrom(order: seq<LogFile>, total: nat, k: nat): (r: nat)
    requires k <= |order| && Room(order, total, k)
    ensures IsCut(order, total, r)
    decreases |order| - k
  {
    if k < |order| && Sum(order[..k]) < total then CutFrom(order, total, k + 1) else k
  }

  function Elements(files: seq<LogFile>): set<LogFile> {
    set f | f in files
  }

  class LogDirectory {
    const total: nat
    var files: set<LogFile>

    constructor (files: set<LogFile>, total: nat)
      ensures this.files == files && this.total == total
    {
      this.files, this.total := files, total;
    }

    /** The first loop, over the directory in the order its iterator gives. */
    method CollectLogs(listing: seq<LogFile>) returns (logs: seq<LogFile>)
      ensures logs == Logs(listing)
      ensures forall f :: multiset(logs)[f] == if HasExtension(f.name) then multiset(listing)[f] else 0
    {
      logs := [];
      for i := 0 to |listing|
        invariant logs == Logs(listing[..i])
      {
        assert listing[..i + 1][..i] == listing[..i];
        if IsLog(listing[i].name) {
          logs := logs + [listing[i]];
        }
      }
      assert listing[..|listing|] == listing;
      forall f ensures multiset(logs)[f] == if HasExtension(f.name) then multiset(listing)[f] else 0 {
        LogsCount(listing, f);
      }
    }

    /**
     * The whole of `EliminateFiles_`. `listing` is the directory as its iterator gives it and `order` what the sort
     * makes of the log files in it; `k` of them are kept. No other file goes away.
     */
    method EliminateFiles(listing: seq<LogFile>, order: seq<LogFile>) returns (ghost k: nat)
      requires IsOrder(order, Logs(listing))
      modifies this`files
      ensures IsCut(order, total, k)
      ensures files == old(files) - Elements(order[k..])
      ensures forall f | f in old(files) && !HasExtension(f.name) :: f in files
    {
      var logs := CollectLogs(listing);
      assert multiset(order) == multiset(logs);
      k := RemoveBeyondTotal(order);
      forall f | f in Elements(order[k..]) ensures HasExtension(f.name) {
        assert f in multiset(order);
        LogsCount(listing, f);
      }
    }

    /** The second loop, over what the sort has left. `k` files are kept. */
    method RemoveBeyondTotal(order: seq<LogFile>) returns (ghost k: nat)
      modifies this`files
      ensures IsCut(order, total, k)
      ensures files == old(files) - Elements(order[k..])
    {
      var current := 0;
      k := 0;
      for i := 0 to |order|
        invariant k <= i
        invariant current == Sum(order[..k])
        invariant k < i ==> current >= total
        invariant Room(order, total, k)
        invariant files == old(files) - Elements(order[k..i])
      {
        if current < total {
          SumNext(order, i);
          current := current + order[i].size;
          k := i + 1;
        } else {
          ElementsNext(order, k, i);
          files := files - {order[i]};
        }
      }
      assert order[k..|order|] == order[k..];
    }
  }

  lemma SumNext(order: seq<LogFile>, i: nat)
    requires i < |order|
    ensures Sum(order[..i + 1]) == Sum(order[..i]) + order[i].size
  {
    assert order[..i + 1][..i] == order[..i];
  }

  lemma ElementsNext(order: seq<LogFile>, k: nat, i: nat)
    requires k <= i < |order|
    ensures Elements(order[k..i + 1]) == Elements(order[k..i]) + {order[i]}
  {
    assert order[k..i + 1] == order[k..i] + [order[i]];
  }
}
