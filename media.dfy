/**
 * media.js: one media file being shared.  Its meta-data (`info`) says how
 * many parts the file has, which are stored locally and which other nodes
 * seem to hold; the parts themselves live in a key-value store (localforage)
 * under keys derived from the url.
 */
module Media {
  import opened Wrappers
  import opened Messages
  import Util

  /** `Media.chunkSize`: the size of the parts a file fetched from its origin is cut into. */
  const ChunkSize := 1000

  /** What the store holds: a part's bytes, or a media's meta-data. */
  datatype Value = ChunkValue(bytes: seq<int>) | InfoValue(info: Info)

  /** The key-value store shared by every media of the node; it starts empty. */
  class Store {
    var items: map<string, Value>

    constructor ()
      ensures items == map[]
    {
      items := map[];
    }
  }

  // ---------------------------------------------------------------- keys

  function DigitChar(d: int): (c: char)
    requires 0 <= d < 10
    ensures '0' <= c <= '9' && c as int - '0' as int == d
  {
    "0123456789"[d]
  }

  predicate IsDigits(s: string) {
    forall i :: 0 <= i < |s| ==> '0' <= s[i] <= '9'
  }

  /** Decimal notation of a natural number, as JavaScript prints it. */
  function NatToString(n: nat): (s: string)
    ensures |s| > 0 && IsDigits(s)
    decreases n
  {
    if n < 10 then [DigitChar(n)] else NatToString(n / 10) + [DigitChar(n % 10)]
  }

  /** The value of a string of decimal digits. */
  function DigitsValue(s: string): nat
    requires IsDigits(s)
  {
    if s == [] then 0 else DigitsValue(s[..|s| - 1]) * 10 + (s[|s| - 1] as int - '0' as int)
  }

  lemma {:induction false} DigitsRoundTrip(n: nat)
    ensures DigitsValue(NatToString(n)) == n
    decreases n
  {
    if n >= 10 {
      var s := NatToString(n);
      assert s[..|s| - 1] == NatToString(n / 10);
      DigitsRoundTrip(n / 10);
    }
  }

  /** Decimal notation of an integer, with a leading minus sign when negative. */
  function IntToString(n: int): (s: string)
    ensures |s| > 0
  {
    if n < 0 then "-" + NatToString(-n) else NatToString(n)
  }

  lemma NatToStringInjective(a: nat, b: nat)
    requires NatToString(a) == NatToString(b)
    ensures a == b
  {
    DigitsRoundTrip(a);
    DigitsRoundTrip(b);
  }

  /** A minus sign leads the notation exactly when the number is negative. */
  lemma IntToStringSign(n: int)
    ensures (IntToString(n)[0] == '-') <==> n < 0
    ensures n < 0 ==> IntToString(n)[1..] == NatToString(-n)
  {
    if n >= 0 {
      assert '0' <= NatToString(n)[0] <= '9';
    }
  }

  /** The value of a decimal notation with an optional leading minus sign. */
  function SignedValue(s: string): int
    requires |s| > 0 && (if s[0] == '-' then IsDigits(s[1..]) else IsDigits(s))
  {
    if s[0] == '-' then -(DigitsValue(s[1..]) as int) else DigitsValue(s)
  }

  lemma IntToStringRoundTrip(n: int)
    ensures var s := IntToString(n); |s| > 0 && (if s[0] == '-' then IsDigits(s[1..]) else IsDigits(s))
    ensures SignedValue(IntToString(n)) == n
  {
    if n < 0 {
      DigitsRoundTrip(-n);
      NegativeRoundTrip(n, NatToString(-n), IntToString(n));
    } else {
      DigitsRoundTrip(n);
      NonNegativeRoundTrip(n, IntToString(n));
    }
  }

  lemma NegativeRoundTrip(n: int, digits: string, s: string)
    requires n < 0 && IsDigits(digits) && DigitsValue(digits) == -n && s == "-" + digits
    ensures |s| > 0 && s[0] == '-' && IsDigits(s[1..]) && SignedValue(s) == n
  {
    assert s[1..] == digits;
  }

  lemma NonNegativeRoundTrip(n: nat, s: string)
    requires s == NatToString(n) && DigitsValue(s) == n
    ensures |s| > 0 && s[0] != '-' && IsDigits(s) && SignedValue(s) == n
  {
    assert '0' <= s[0] <= '9';
  }

  lemma IntToStringInjective(a: int, b: int)
    requires IntToString(a) == IntToString(b)
    ensures a == b
  {
    IntToStringRoundTrip(a);
    IntToStringRoundTrip(b);
  }

  /** The key of part `n` of the media at `url`. */
  function PartKey(url: string, n: int): string {
    url + "-part" + IntToString(n)
  }

  /** The key of the meta-data of the media at `url`. */
  function InfoKey(url: string): string {
    url + "-info"
  }

  /** The test `/-info$/` that picks the meta-data entries out of the store. */
  predicate IsInfoKey(k: string) {
    |k| >= 5 && k[|k| - 5..] == "-info"
  }

  /** Two parts of one media never share a key. */
  lemma PartKeyInjective(url: string, a: int, b: int)
    requires PartKey(url, a) == PartKey(url, b)
    ensures a == b
  {
    var n := |url| + 5;
    assert PartKey(url, a)[n..] == IntToString(a);
    assert PartKey(url, b)[n..] == IntToString(b);
    IntToStringInjective(a, b);
  }

  /** Meta-data keys are exactly the ones the `-info` test keeps; no part key passes it. */
  lemma KeysAreClassified(url: string, other: string, n: int)
    ensures IsInfoKey(InfoKey(url))
    ensures !IsInfoKey(PartKey(other, n))
    ensures PartKey(other, n) != InfoKey(url)
  {
    var k := PartKey(other, n);
    var s := IntToString(n);
    assert k[|k| - 1] == s[|s| - 1];
    assert s[|s| - 1] == (if n < 0 then NatToString(-n) else NatToString(n))[|s| - 1 - (if n < 0 then 1 else 0)];
    var i := InfoKey(url);
    assert i[|i| - 5..] == "-info";
  }

  // ---------------------------------------------------- availability queries

  /** `peerHasPart`: part `n` is stored locally, i.e. `indexOf` finds it in the available list. */
  predicate PeerHasPart(info: Info, n: int): (b: bool)
    ensures b <==> Position(info.available, n) < |info.available|
  {
    n in info.available
  }

  /**
   * `remoteHasPart`: the last meta-data heard says node `p` holds part `n`,
   * i.e. `indexOf` finds it in that node's list; false for an unknown node.
   */
  predicate RemoteHasPart(info: Info, p: string, n: int): (b: bool)
    ensures p !in info.remote ==> !b
    ensures p in info.remote ==> (b <==> Position(info.remote[p], n) < |info.remote[p]|)
  {
    p in info.remote && n in info.remote[p]
  }

  /** Some known node holds part `n`. */
  predicate Held(info: Info, n: int) {
    exists p :: p in info.remote && RemoteHasPart(info, p, n)
  }

  /** A part worth requesting: missing here, not requested yet, and held by some known node. */
  predicate Wanted(info: Info, pending: seq<Option<int>>, n: int) {
    !PeerHasPart(info, n) && Some(n) !in pending && Held(info, n)
  }

  /** The parts below `n` worth requesting, in increasing order. */
  function CandidatesBelow(info: Info, pending: seq<Option<int>>, n: nat): (r: seq<int>)
    ensures forall t :: 0 <= t < |r| ==> 0 <= r[t] < n && Wanted(info, pending, r[t])
    ensures forall x :: 0 <= x < n && Wanted(info, pending, x) ==> x in r
    ensures forall s, t :: 0 <= s < t < |r| ==> r[s] < r[t]
  {
    if n == 0 then []
    else CandidatesBelow(info, pending, n - 1) + (if Wanted(info, pending, n - 1) then [n - 1] else [])
  }

  /** Every part of the media worth requesting, in increasing order. */
  function Candidates(info: Info, pending: seq<Option<int>>): (r: seq<int>)
    ensures forall t :: 0 <= t < |r| ==> 0 <= r[t] < info.parts && Wanted(info, pending, r[t])
    ensures forall x :: 0 <= x < info.parts && Wanted(info, pending, x) ==> x in r
  {
    if info.parts <= 0 then [] else CandidatesBelow(info, pending, info.parts)
  }

  /** The candidates are exactly the wanted parts in range, strictly ascending (and so distinct). */
  lemma CandidatesSpec(info: Info, pending: seq<Option<int>>)
    ensures forall x :: x in Candidates(info, pending) <==> 0 <= x < info.parts && Wanted(info, pending, x)
    ensures forall s, t :: 0 <= s < t < |Candidates(info, pending)| ==>
      Candidates(info, pending)[s] < Candidates(info, pending)[t]
  {
  }

  function Min(a: int, b: int): int {
    if a <= b then a else b
  }

  /** Pending entries are distinct: no part is awaited twice. */
  predicate PendingDistinct(pending: seq<Option<int>>) {
    forall i, j :: 0 <= i < j < |pending| && pending[i].Some? ==> pending[i] != pending[j]
  }

  /** `s.indexOf(x)` as a position: the first entry equal to `x`, or the length (for `-1`) when there is none. */
  function Position<T(==)>(s: seq<T>, x: T): (i: nat)
    ensures i <= |s|
    ensures i < |s| ==> s[i] == x
    ensures forall j :: 0 <= j < i ==> s[j] != x
  {
    if s == [] then 0
    else if s[0] == x then 0
    else 1 + Position(s[1..], x)
  }

  /** `delete pendingParts[indexOf(n)]`: the first entry for `n` becomes a hole. */
  function Unpend(pending: seq<Option<int>>, n: int): (r: seq<Option<int>>)
    ensures |r| == |pending|
    ensures Some(n) !in pending ==> r == pending
    ensures Some(n) in pending ==> var i := Position(pending, Some(n));
      Some(n) !in pending[..i] && r[i].None? && r[..i] == pending[..i] && r[i + 1..] == pending[i + 1..]
    ensures forall i :: 0 <= i < |r| && r[i] != pending[i] ==> pending[i] == Some(n) && r[i].None?
  {
    var i := Position(pending, Some(n));
    if i < |pending| then pending[i := None] else pending
  }

  /** With distinct entries, a stored part is no longer pending, and the entries stay distinct. */
  lemma UnpendClears(pending: seq<Option<int>>, n: int)
    requires PendingDistinct(pending)
    ensures Some(n) !in Unpend(pending, n)
    ensures PendingDistinct(Unpend(pending, n))
  {
    var r := Unpend(pending, n);
    if Some(n) in pending {
      var i := Position(pending, Some(n));
      forall j | 0 <= j < |r|
        ensures r[j] != Some(n)
      {
        if j != i {
          assert r[j] == pending[j];
          assert pending[j] != pending[i] by {
            if j > i { assert pending[i].Some?; }
          }
        }
      }
    }
  }

  /** Part `i` of a buffer cut into parts of `size`: the bytes from `i * size` up to the next part or the end. */
  function Chunk(buffer: seq<int>, size: nat, i: nat): (c: seq<int>)
    requires size > 0 && i < PartCount(|buffer|, size)
    ensures |c| == Min(size, |buffer| - i * size)
  {
    PartStartInRange(|buffer|, size, i);
    buffer[i * size .. Min((i + 1) * size, |buffer|)]
  }

  /** Every part starts inside the buffer. */
  lemma PartStartInRange(length: nat, size: nat, i: nat)
    requires size > 0 && i < PartCount(length, size)
    ensures i * size < length
    ensures (i + 1) * size == i * size + size
  {
    var n := PartCount(length, size);
    assert (n - 1) * size == i * size + (n - 1 - i) * size;
  }

  /** `Math.ceil(length / size)`. */
  function PartCount(length: nat, size: nat): (n: nat)
    requires size > 0
    ensures n * size >= length
    ensures n > 0 ==> (n - 1) * size < length
  {
    (length + size - 1) / size
  }

  /** The first `n` parts, put back together. */
  function Joined(buffer: seq<int>, size: nat, n: nat): seq<int>
    requires size > 0 && n <= PartCount(|buffer|, size)
  {
    if n == 0 then [] else Joined(buffer, size, n - 1) + Chunk(buffer, size, n - 1)
  }

  /** The parts are consecutive slices: together they are the buffer again. */
  lemma {:induction false} JoinedPrefix(buffer: seq<int>, size: nat, n: nat)
    requires size > 0 && n <= PartCount(|buffer|, size)
    ensures Joined(buffer, size, n) == buffer[..Min(n * size, |buffer|)]
  {
    if n > 0 {
      JoinedPrefix(buffer, size, n - 1);
      PartStartInRange(|buffer|, size, n - 1);
      var lo, hi := (n - 1) * size, Min(n * size, |buffer|);
      assert lo < |buffer| && n * size == lo + size;
      assert lo <= hi <= |buffer|;
      assert Chunk(buffer, size, n - 1) == buffer[lo..hi];
      assert buffer[..hi] == buffer[..lo] + buffer[lo..hi];
    }
  }

  lemma ChunksRebuildBuffer(buffer: seq<int>, size: nat)
    requires size > 0
    ensures Joined(buffer, size, PartCount(|buffer|, size)) == buffer
  {
    JoinedPrefix(buffer, size, PartCount(|buffer|, size));
  }

  // ------------------------------------------------------- remote meta-data

  /** The lists of a parsed incoming `info`: its `available` list, and the list of each node in its `remote` table. */
  datatype Slot = IncomingAvailable | IncomingRemote(node: string)

  /** The contents of every list of a freshly parsed `info`. */
  function Lists(inc: Info): (r: map<Slot, seq<int>>)
    ensures IncomingAvailable in r && r[IncomingAvailable] == inc.available
    ensures forall k :: k in inc.remote ==> IncomingRemote(k) in r && r[IncomingRemote(k)] == inc.remote[k]
    ensures forall s :: s in r ==> s == IncomingAvailable || (s.IncomingRemote? && s.node in inc.remote)
  {
    map s | s in {IncomingAvailable} + set k | k in inc.remote :: IncomingRemote(k) ::
      if s.IncomingRemote? then inc.remote[s.node] else inc.available
  }

  /**
   * Part `p` is available at the sender, or the sender reports that another
   * node holds it (what it says of itself in its table is overwritten first).
   */
  predicate ReportedBy(inc: Info, from: string, p: int) {
    p in inc.available || exists k :: k in inc.remote && k != from && p in inc.remote[k]
  }

  lemma PrefixKeeps(a: seq<int>, b: seq<int>, p: int)
    requires a <= b && p in a
    ensures p in b
  {
    var i :| 0 <= i < |a| && a[i] == p;
    assert b[i] == p;
  }

  /** Part `p` is mentioned somewhere in the incoming meta-data. */
  predicate FromIncoming(inc: Info, p: int) {
    p in inc.available || exists k :: k in inc.remote && p in inc.remote[k]
  }

  /**
   * The inner loop of `buildInfoFromRemote`: every element of list `src` that
   * list `target` lacks is pushed onto `target`.  The two may be one list.
   */
  method MergeInto(lists: map<Slot, seq<int>>, src: Slot, target: Slot) returns (r: map<Slot, seq<int>>)
    requires src in lists && target in lists
    ensures r.Keys == lists.Keys
    ensures forall s :: s in lists && s != target ==> r[s] == lists[s]
    ensures lists[target] <= r[target]
    ensures forall p :: p in r[target] ==> p in lists[target] || p in lists[src]
    ensures forall p :: p in lists[src] ==> p in r[target]
    ensures forall i :: |lists[target]| <= i < |r[target]| ==>
      r[target][i] !in lists[target] && forall j :: i < j < |r[target]| ==> r[target][i] != r[target][j]
  {
    r := lists;
    var i := 0;
    while i < |r[src]|
      invariant r.Keys == lists.Keys
      invariant forall s :: s in lists && s != target ==> r[s] == lists[s]
      invariant lists[target] <= r[target]
      invariant forall p :: p in r[target] ==> p in lists[target] || p in lists[src]
      invariant src == target ==> r[src] == lists[src]
      invariant src != target ==> r[src] == lists[src]
      invariant 0 <= i <= |lists[src]|
      invariant forall j :: 0 <= j < i ==> lists[src][j] in r[target]
      invariant forall k :: |lists[target]| <= k < |r[target]| ==>
        r[target][k] !in lists[target] && forall j :: k < j < |r[target]| ==> r[target][k] != r[target][j]
      decreases |lists[src]| - i
    {
      var p := r[src][i];
      if p !in r[target] {
        r := r[target := r[target] + [p]];
      }
      i := i + 1;
    }
  }

  /**
   * The loop of `buildInfoFromRemote` over the nodes `keys` of the incoming
   * table, on the lists of the incoming object: `target` is the list the
   * sender's entry currently is, `known` the nodes of the local table.  When
   * `aliased`, the local table is the incoming one, whose sender entry is the
   * incoming available list.
   */
  method MergeRemote(inc: Info, from: string, keys: seq<string>, known: set<string>, aliased: bool)
    returns (lists: map<Slot, seq<int>>, target: Slot)
    requires forall k :: k in keys ==> k in inc.remote || (aliased && k == from)
    requires aliased ==> forall k :: k in keys ==> k in known
    ensures lists.Keys == Lists(inc).Keys && target in lists
    ensures aliased ==> target == IncomingAvailable
    ensures aliased ==> forall k :: k in inc.remote ==> lists[IncomingRemote(k)] == inc.remote[k]
    ensures inc.available <= lists[IncomingAvailable]
    ensures forall s, p :: s in lists && p in lists[s] ==> FromIncoming(inc, p)
    ensures aliased ==> forall k, p :: k in keys && k in inc.remote && k != from && p in inc.remote[k] ==> p in lists[target]
  {
    lists := Lists(inc);
    target := IncomingAvailable;
    var t := 0;
    while t < |keys|
      invariant 0 <= t <= |keys|
      invariant lists.Keys == Lists(inc).Keys && target in lists
      invariant aliased ==> target == IncomingAvailable
      invariant aliased ==> forall k :: k in inc.remote ==> lists[IncomingRemote(k)] == inc.remote[k]
      invariant inc.available <= lists[IncomingAvailable]
      invariant forall s, p :: s in lists && p in lists[s] ==> FromIncoming(inc, p)
      invariant aliased ==> forall j, p :: 0 <= j < t && keys[j] in inc.remote && keys[j] != from && p in inc.remote[keys[j]] ==>
        p in lists[target]
    {
      var k := keys[t];
      if k in known {
        var src := if aliased && k == from then target else IncomingRemote(k);
        ghost var before := lists;
        lists := MergeInto(lists, src, target);
        if aliased {
          forall j, p | 0 <= j <= t && keys[j] in inc.remote && keys[j] != from && p in inc.remote[keys[j]]
            ensures p in lists[target]
          {
            if j < t {
              PrefixKeeps(before[target], lists[target], p);
            }
          }
        }
      } else {
        target := IncomingRemote(k);
      }
      t := t + 1;
    }
    if aliased {
      forall k, p | k in keys && k in inc.remote && k != from && p in inc.remote[k]
        ensures p in lists[target]
      {
        var j :| 0 <= j < |keys| && keys[j] == k;
      }
    }
  }

  /** In the first-info case the merged sender entry holds everything the sender reported. */
  lemma FirstMergeComplete(inc: Info, from: string, keys: seq<string>, lists: map<Slot, seq<int>>, target: Slot)
    requires forall k :: k in inc.remote ==> k in keys
    requires target == IncomingAvailable && target in lists
    requires inc.available <= lists[IncomingAvailable]
    requires forall k, p :: k in keys && k in inc.remote && k != from && p in inc.remote[k] ==> p in lists[target]
    ensures forall p :: ReportedBy(inc, from, p) ==> p in lists[target]
  {
    forall p | ReportedBy(inc, from, p)
      ensures p in lists[target]
    {
      if p in inc.available {
        PrefixKeeps(inc.available, lists[IncomingAvailable], p);
      } else {
        var k :| k in inc.remote && k != from && p in inc.remote[k];
      }
    }
  }

  /**
   * What `buildInfoFromRemote` leaves: the local meta-data `after` and the
   * incoming object `sent` as it is then stored, from the local meta-data
   * `before` and the incoming `inc` sent by `from`.
   */
  ghost predicate RemoteMerge(before: Option<Info>, inc: Info, from: string, after: Info, sent: Info) {
    // With no meta-data yet, the local one adopts the incoming url and sizes, with nothing available.
    && (before.None? ==> after.url == inc.url && after.parts == inc.parts && after.size == inc.size && after.available == [])
    // Otherwise only the remote table changes.
    && (before.Some? ==> after == before.value.(remote := after.remote))
    // The table gains the sender's entry, and no other entry changes.
    && after.remote.Keys == (if before.None? then inc.remote.Keys else before.value.remote.Keys) + {from}
    && (forall k :: k in after.remote && k != from ==>
          after.remote[k] == if before.None? then inc.remote[k] else before.value.remote[k])
    // The sender's entry lists only parts the incoming meta-data mention ...
    && (forall p :: p in after.remote[from] ==> FromIncoming(inc, p))
    // ... and, on the first meta-data, every part the sender reported.
    && (before.None? ==> forall p :: ReportedBy(inc, from, p) ==> p in after.remote[from])
    // The stored object is the incoming one, whose lists the merge may have grown.
    && sent.url == inc.url && sent.parts == inc.parts && sent.size == inc.size
    && inc.available <= sent.available
    && sent.remote.Keys == (if before.None? then inc.remote.Keys + {from} else inc.remote.Keys)
    && (before.None? ==> sent.remote == after.remote && sent.available == after.remote[from])
  }

  /**
   * `buildInfoFromRemote` on values.  With no meta-data yet, the local one
   * adopts the incoming url, sizes and (aliased) remote table, with nothing
   * available.  Then the sender's entry becomes the incoming available list,
   * and for each node of the incoming table the merge either pushes that
   * node's parts onto the sender's entry (the node is known) or makes the
   * sender's entry that node's list (it is not).  The lists involved are
   * those of the parsed incoming object, so the pushes also show in what is
   * stored.
   */
  method MergeInfo(before: Option<Info>, inc: Info, from: string) returns (after: Info, sent: Info)
    ensures RemoteMerge(before, inc, from, after, sent)
  {
    if before.None? {
      after, sent := MergeFirst(inc, from);
    } else {
      after, sent := MergeAgain(before.value, inc, from);
    }
  }

  /** `buildInfoFromRemote` with no local meta-data yet. */
  method MergeFirst(inc: Info, from: string) returns (after: Info, sent: Info)
    ensures RemoteMerge(None, inc, from, after, sent)
  {
    var keys := Util.KeysOf(inc.remote[from := inc.available]);
    var lists, target := MergeRemote(inc, from, keys, inc.remote.Keys + {from}, true);
    FirstMergeComplete(inc, from, keys, lists, target);
    after := Info(inc.url, inc.parts, inc.size, inc.remote[from := lists[target]], []);
    sent := Info(inc.url, inc.parts, inc.size, after.remote, lists[IncomingAvailable]);
  }

  /** `buildInfoFromRemote` over the local meta-data `local`. */
  method MergeAgain(local: Info, inc: Info, from: string) returns (after: Info, sent: Info)
    ensures RemoteMerge(Some(local), inc, from, after, sent)
  {
    var keys := Util.KeysOf(inc.remote);
    var lists, target := MergeRemote(inc, from, keys, local.remote.Keys + {from}, false);
    after := local.(remote := local.remote[from := lists[target]]);
    sent := Info(inc.url, inc.parts, inc.size, map k | k in inc.remote :: lists[IncomingRemote(k)], lists[IncomingAvailable]);
  }

  /**
   * `selectPeer`: the first node, in a shuffled order of the remote table's
   * keys, that holds part `n`; none when nobody does.
   */
  method SelectPeer(info: Info, n: int) returns (p: Option<string>)
    ensures p.Some? <==> Held(info, n)
    ensures p.Some? ==> RemoteHasPart(info, p.value, n)
  {
    var keys := Util.KeysOf(info.remote);
    var ids := new string[|keys|](i requires 0 <= i < |keys| => keys[i]);
    assert ids[..] == keys;
    var shuffled, _ := Util.ShuffleArray(ids);
    SameElements(keys, shuffled[..]);
    p := FirstHolder(info, n, shuffled);
  }

  /** The loop of `selectPeer`: the first node of `a` that holds part `n`. */
  method FirstHolder(info: Info, n: int, a: array<string>) returns (p: Option<string>)
    ensures p.Some? ==> RemoteHasPart(info, p.value, n)
    ensures p.Some? ==> exists j :: 0 <= j < a.Length && a[j] == p.value && forall t :: 0 <= t < j ==> !RemoteHasPart(info, a[t], n)
    ensures p.None? <==> forall t :: 0 <= t < a.Length ==> !RemoteHasPart(info, a[t], n)
  {
    var j := 0;
    while j < a.Length
      invariant 0 <= j <= a.Length
      invariant forall t :: 0 <= t < j ==> !RemoteHasPart(info, a[t], n)
    {
      if RemoteHasPart(info, a[j], n) {
        return Some(a[j]);
      }
      j := j + 1;
    }
    return None;
  }

  /** Two sequences with the same elements, counted with multiplicity, contain the same values. */
  lemma SameElements<T>(s: seq<T>, r: seq<T>)
    requires multiset(r) == multiset(s)
    ensures forall x :: x in s <==> x in r
  {
    forall x
      ensures x in s <==> x in r
    {
      assert x in s <==> x in multiset(s);
      assert x in r <==> x in multiset(r);
    }
  }

  /**
   * The store once `storeFileBuffer` has stored the fresh meta-data and the
   * first `i` parts of `buffer` under `url`, over the store `before`: every
   * entry it does not write is as before.
   */
  ghost predicate StoredUpTo(before: map<string, Value>, items: map<string, Value>, url: string,
                             buffer: seq<int>, chunkSize: nat, i: nat)
    requires chunkSize > 0 && i <= PartCount(|buffer|, chunkSize)
  {
    var parts := PartCount(|buffer|, chunkSize);
    && InfoKey(url) in items && items[InfoKey(url)] == InfoValue(Info(url, parts, |buffer|, map[], []))
    && (forall j :: 0 <= j < i ==>
          PartKey(url, j) in items && items[PartKey(url, j)] == ChunkValue(Chunk(buffer, chunkSize, j)))
    && (forall k :: k in before && k != InfoKey(url) && (forall j :: 0 <= j < parts ==> k != PartKey(url, j)) ==>
          k in items && items[k] == before[k])
  }

  /** Storing part `i` takes the store from `i` stored parts to `i + 1`. */
  lemma StoredStep(before: map<string, Value>, items: map<string, Value>, url: string,
                   buffer: seq<int>, chunkSize: nat, i: nat)
    requires chunkSize > 0 && i < PartCount(|buffer|, chunkSize)
    requires StoredUpTo(before, items, url, buffer, chunkSize, i)
    ensures StoredUpTo(before, items[PartKey(url, i) := ChunkValue(Chunk(buffer, chunkSize, i))], url, buffer, chunkSize, i + 1)
  {
    KeysAreClassified(url, url, i);
    forall j | 0 <= j < PartCount(|buffer|, chunkSize) && PartKey(url, j) == PartKey(url, i)
      ensures j == i
    {
      PartKeyInjective(url, j, i);
    }
  }

  class Media {
    const url: string
    const autoload: bool
    /** The node's key-value store. */
    const store: Store
    /** `info`; `None` is the empty object `{}` a media starts with. */
    var info: Option<Info>
    var complete: bool
    /** Requested parts not received yet; a received one leaves a hole (`delete`). */
    var pendingParts: seq<Option<int>>
    /** The timer that falls back to the origin server is running. */
    var fallbackArmed: bool

    /** `new Media(url, tag, autoload)`. */
    constructor (url: string, autoload: bool, store: Store)
      ensures this.url == url && this.autoload == autoload && this.store == store
      ensures info.None? && !complete && pendingParts == [] && !fallbackArmed
    {
      this.url := url;
      this.autoload := autoload;
      this.store := store;
      info := None;
      complete := false;
      pendingParts := [];
      fallbackArmed := false;
    }

    /** `createMediaFromInfo`: a seed for stored meta-data, marked complete so it is never requested. */
    constructor FromInfo(info: Info, autoplay: bool, store: Store)
      ensures url == info.url && autoload == autoplay && this.store == store
      ensures this.info == Some(info) && complete && pendingParts == [] && !fallbackArmed
    {
      url := info.url;
      autoload := autoplay;
      this.store := store;
      this.info := Some(info);
      complete := true;
      pendingParts := [];
      fallbackArmed := false;
    }

    /** `isComplete`; starting playback when `autoload` is set is not part of this model. */
    method IsComplete(value: bool)
      modifies this`complete
      ensures complete == value
    {
      complete := value;
    }

    /** `startDownloadTimeout`. */
    method StartDownloadTimeout()
      modifies this`fallbackArmed
      ensures fallbackArmed
    {
      fallbackArmed := true;
    }

    /** `cancelServerDownload`. */
    method CancelServerDownload()
      modifies this`fallbackArmed
      ensures !fallbackArmed
    {
      fallbackArmed := false;
    }

    /** `storeInfo`: the meta-data goes under the key of its own url. */
    method StoreInfo(i: Info)
      modifies store
      ensures store.items == old(store.items)[InfoKey(i.url) := InfoValue(i)]
    {
      store.items := store.items[InfoKey(i.url) := InfoValue(i)];
    }

    /**
     * `storeChunk`: the part stops being pending; a part already available
     * is not written again; a new one is recorded, written under its key, and
     * completes the media when it is the last one.  With the empty meta-data
     * the source throws after the pending entry is gone.
     */
    method StoreChunk(n: int, data: seq<int>) returns (thrown: bool)
      modifies this`pendingParts, this`info, this`complete, store
      ensures pendingParts == Unpend(old(pendingParts), n)
      ensures thrown <==> old(info).None?
      ensures thrown || PeerHasPart(old(info).value, n) ==>
        info == old(info) && complete == old(complete) && store.items == old(store.items)
      ensures !thrown && !PeerHasPart(old(info).value, n) ==>
        && info == Some(old(info).value.(available := old(info).value.available + [n]))
        && store.items == old(store.items)[PartKey(url, n) := ChunkValue(data)]
        && complete == (old(complete) || |info.value.available| == info.value.parts)
    {
      pendingParts := Unpend(pendingParts, n);
      if info.None? {
        return true;
      }
      thrown := false;
      var i := info.value;
      if n in i.available {
        return;
      }
      info := Some(i.(available := i.available + [n]));
      store.items := store.items[PartKey(url, n) := ChunkValue(data)];
      if |info.value.available| == info.value.parts {
        IsComplete(true);
      }
    }

    /** `buildInfoFromLocal`: fresh meta-data for a file fetched from its origin, stored at once. */
    method BuildInfoFromLocal(size: int, parts: int)
      modifies this`info, store
      ensures info == Some(Info(url, parts, size, map[], []))
      ensures store.items == old(store.items)[InfoKey(url) := InfoValue(info.value)]
    {
      info := Some(Info(url, parts, size, map[], []));
      StoreInfo(info.value);
    }

    /**
     * `storeFileBuffer`: the buffer is cut into `ceil(length / chunkSize)`
     * consecutive parts, meta-data are reset first, and every part is stored
     * in order, so that all of them end up available.
     */
    method StoreFileBuffer(chunkSize: nat, buffer: seq<int>)
      requires chunkSize > 0
      modifies this`pendingParts, this`info, this`complete, store
      ensures var parts := PartCount(|buffer|, chunkSize);
        && info == Some(Info(url, parts, |buffer|, map[], seq(parts, j => j)))
        && complete == (old(complete) || parts > 0)
        && pendingParts == UnpendBelow(old(pendingParts), parts)
        && InfoKey(url) in store.items && store.items[InfoKey(url)] == InfoValue(Info(url, parts, |buffer|, map[], []))
        && (forall j :: 0 <= j < parts ==>
              PartKey(url, j) in store.items && store.items[PartKey(url, j)] == ChunkValue(Chunk(buffer, chunkSize, j)))
        && (forall k :: k in old(store.items) && k != InfoKey(url) && (forall j :: 0 <= j < parts ==> k != PartKey(url, j)) ==>
              k in store.items && store.items[k] == old(store.items)[k])
    {
      var parts := PartCount(|buffer|, chunkSize);
      BuildInfoFromLocal(|buffer|, parts);
      assert seq(0, j => j) == [];
      var i := 0;
      while i < parts
        invariant 0 <= i <= parts
        invariant info == Some(Info(url, parts, |buffer|, map[], seq(i, j => j)))
        invariant complete == (old(complete) || (i > 0 && i == parts))
        invariant pendingParts == UnpendBelow(old(pendingParts), i)
        invariant StoredUpTo(old(store.items), store.items, url, buffer, chunkSize, i)
      {
        StoredStep(old(store.items), store.items, url, buffer, chunkSize, i);
        StoreNextPart(chunkSize, buffer, i);
        i := i + 1;
      }
    }

    /** One round of the loop of `storeFileBuffer`: part `i` is stored, and is new. */
    method StoreNextPart(chunkSize: nat, buffer: seq<int>, i: nat)
      requires chunkSize > 0 && i < PartCount(|buffer|, chunkSize)
      requires info == Some(Info(url, PartCount(|buffer|, chunkSize), |buffer|, map[], seq(i, j => j)))
      modifies this`pendingParts, this`info, this`complete, store
      ensures info == Some(Info(url, PartCount(|buffer|, chunkSize), |buffer|, map[], seq(i + 1, j => j)))
      ensures pendingParts == Unpend(old(pendingParts), i)
      ensures complete == (old(complete) || i + 1 == PartCount(|buffer|, chunkSize))
      ensures store.items == old(store.items)[PartKey(url, i) := ChunkValue(Chunk(buffer, chunkSize, i))]
    {
      assert i !in seq(i, j => j);
      assert seq(i, j => j) + [i] == seq(i + 1, j => j);
      var _ := StoreChunk(i, Chunk(buffer, chunkSize, i));
    }

    /** `buildInfoFromRemote` followed by `storeInfo(info)`, on this media's meta-data; see `RemoteMerge`. */
    method BuildInfoFromRemote(inc: Info, from: string) returns (sent: Info)
      modifies this`info, store
      ensures info.Some? && RemoteMerge(old(info), inc, from, info.value, sent)
      ensures store.items == old(store.items)[InfoKey(inc.url) := InfoValue(sent)]
    {
      var after;
      after, sent := MergeInfo(info, inc, from);
      info := Some(after);
      StoreInfo(sent);
    }

    /**
     * `nextPartsToDownload(howMany)`: the first `howMany` candidates, each
     * paired with a node picked at random among those that hold it.  Negative
     * part counts make the source's `new Array` throw.
     */
    method NextPartsToDownload(howMany: nat) returns (thrown: bool, r: seq<(string, int)>)
      requires info.Some?
      ensures thrown <==> info.value.parts < 0
      ensures thrown ==> r == []
      ensures !thrown ==> |r| == Min(howMany, |Candidates(info.value, pendingParts)|)
      ensures forall t :: 0 <= t < |r| ==>
        r[t].1 == Candidates(info.value, pendingParts)[t] && RemoteHasPart(info.value, r[t].0, r[t].1)
    {
      var inf := info.value;
      if inf.parts < 0 {
        return true, [];
      }
      thrown := false;
      var selected: seq<(string, int)> := [];
      ghost var cands: seq<int> := [];
      var i := 0;
      while i < inf.parts
        invariant 0 <= i <= inf.parts
        invariant cands == CandidatesBelow(inf, pendingParts, i)
        invariant |selected| == |cands|
        invariant forall t :: 0 <= t < |selected| ==> selected[t].1 == cands[t] && RemoteHasPart(inf, selected[t].0, selected[t].1)
      {
        if !PeerHasPart(inf, i) && Some(i) !in pendingParts {
          var p := SelectPeer(inf, i);
          if p.Some? {
            selected := selected + [(p.value, i)];
            cands := cands + [i];
          }
        }
        i := i + 1;
      }
      r := selected[..Min(howMany, |selected|)];
    }
  }

  /** The pending entries once parts `0 .. n-1` have been stored in turn. */
  function UnpendBelow(pending: seq<Option<int>>, n: nat): (r: seq<Option<int>>)
    ensures |r| == |pending|
    ensures forall i :: 0 <= i < |r| && r[i] != pending[i] ==>
      pending[i].Some? && 0 <= pending[i].value < n && r[i].None?
  {
    if n == 0 then pending else Unpend(UnpendBelow(pending, n - 1), n - 1)
  }
}
