/** The pool of interned strings: blocks of NUL-terminated strings, a location for each entry, and the
    two hash maps that find a string again. */
module StringPool {
  import opened Wrappers
  import opened DatacenterFormat

  type WString = seq<u16>

  /** The number of characters in a block that `AllocateBlock` makes, and of different block indices. */
  const BLOCK_SIZE := 0xFFFF
  const BLOCKS := 0x1_0000

  predicate NulFree(s: WString) {
    0 !in s
  }

  /** The NUL-terminated string at position `o` of a block. */
  function CString(text: seq<u16>, o: nat): WString
    decreases |text| - o
  {
    if o >= |text| || text[o] == 0 then [] else [text[o]] + CString(text, o + 1)
  }

  /** There is a NUL at or after `o`. */
  ghost predicate Terminated(text: seq<u16>, o: nat) {
    exists e :: o <= e < |text| && text[e] == 0
  }

  /** `blocks` are the used parts of the blocks, `entries` the `Indices` of `AllStrings`, and the maps
      are `PresentStringsByIndex` and `PresentStringsByIndices`. */
  datatype Pool = Pool(blocks: seq<seq<u16>>, entries: seq<Indices>, byIndex: map<WString, nat>, byIndices: map<WString, Indices>)

  const Cleared: Pool := Pool([], [], map[], map[])

  function GetString(p: Pool, i: Indices): WString {
    if i.first < |p.blocks| then CString(p.blocks[i.first], i.second) else []
  }

  /** The string of entry `k`, through its location. */
  function Text(p: Pool, k: nat): WString
    requires k < |p.entries|
  {
    GetString(p, p.entries[k])
  }

  // ---- insertion

  /** The first block that has room for `n` more characters, or the number of blocks. */
  function FirstFit(blocks: seq<seq<u16>>, n: nat): (i: nat)
    ensures i <= |blocks|
    ensures i < |blocks| ==> |blocks[i]| + n <= BLOCK_SIZE
    ensures forall j :: 0 <= j < i ==> |blocks[j]| + n > BLOCK_SIZE
  {
    if blocks == [] || |blocks[0]| + n <= BLOCK_SIZE then 0
    else
      var i := FirstFit(blocks[1..], n);
      assert forall j :: 0 < j < i + 1 ==> blocks[j] == blocks[1..][j - 1];
      i + 1
  }

  predicate Fits(s: WString) {
    |s| + 1 <= BLOCK_SIZE
  }

  function WithString(blocks: seq<seq<u16>>, i: nat, s: WString): seq<seq<u16>>
    requires i <= |blocks|
  {
    if i < |blocks| then blocks[i := blocks[i] + s + [0]] else blocks + [s + [0]]
  }

  /** The location that is handed out: the index of the block loses its high bits. */
  function Location(blocks: seq<seq<u16>>, s: WString): Indices
    requires Fits(s)
  {
    var i := FirstFit(blocks, |s| + 1);
    Indices(i % BLOCKS, if i < |blocks| then |blocks[i]| else 0)
  }

  /** A new string goes into a block, and the maps get what is found at its location, unless they have
      it already. */
  function Add(p: Pool, s: WString): Pool
    requires Fits(s)
  {
    var blocks := WithString(p.blocks, FirstFit(p.blocks, |s| + 1), s);
    var at := Location(p.blocks, s);
    var key := GetString(p.(blocks := blocks), at);
    Pool(blocks, p.entries + [at],
         if key in p.byIndex then p.byIndex else p.byIndex[key := |p.entries|],
         if key in p.byIndices then p.byIndices else p.byIndices[key := at])
  }

  /** The two overloads of `InsertString`. */
  function InsertForIndex(p: Pool, s: WString): (Pool, Option<nat>) {
    if s in p.byIndex then (p, Some(p.byIndex[s]))
    else if !Fits(s) then (p, None)
    else (Add(p, s), Some(|p.entries|))
  }

  function InsertForIndices(p: Pool, s: WString): (Pool, Option<Indices>) {
    if s in p.byIndices then (p, Some(p.byIndices[s]))
    else if !Fits(s) then (p, None)
    else (Add(p, s), Some(Location(p.blocks, s)))
  }

  function QueryIndex(p: Pool, s: WString): Option<nat> {
    if s in p.byIndex then Some(p.byIndex[s]) else None
  }

  function QueryIndices(p: Pool, s: WString): Option<Indices> {
    if s in p.byIndices then Some(p.byIndices[s]) else None
  }

  /** `SearchIndex`: the first entry whose string is `s`, from entry `k` on. */
  function SearchFrom(p: Pool, s: WString, k: nat): Option<nat>
    decreases |p.entries| - k
  {
    if k >= |p.entries| then None else if Text(p, k) == s then Some(k) else SearchFrom(p, s, k + 1)
  }

  // ---- what a pool grown by insertion keeps

  /** Entry `k` lies in a block, and its string ends there. */
  ghost predicate Located(p: Pool, k: nat) {
    k < |p.entries| && p.entries[k].first < |p.blocks| && Terminated(p.blocks[p.entries[k].first], p.entries[k].second)
  }

  ghost predicate Distinct(p: Pool) {
    forall j, k :: 0 <= j < k < |p.entries| ==> Text(p, j) != Text(p, k)
  }

  ghost predicate MapsAgree(p: Pool) {
    && (forall k :: 0 <= k < |p.entries| ==> Text(p, k) in p.byIndex && p.byIndex[Text(p, k)] == k)
    && (forall s :: s in p.byIndex ==> p.byIndex[s] < |p.entries| && Text(p, p.byIndex[s]) == s)
    && (forall s :: s in p.byIndices <==> s in p.byIndex)
    && (forall s :: s in p.byIndices ==> p.byIndices[s] == p.entries[p.byIndex[s]])
  }

  /** Entry `k` is the first one of block `b`. */
  ghost predicate Starts(p: Pool, b: nat, k: nat) {
    k < |p.entries| && p.entries[k].first == b % BLOCKS && p.entries[k].second == 0
  }

  ghost predicate BlockOk(p: Pool, b: nat)
    requires b < |p.blocks|
  {
    |p.blocks[b]| <= BLOCK_SIZE && exists k :: Starts(p, b, k)
  }

  function Total(blocks: seq<seq<u16>>): nat {
    if blocks == [] then 0 else Total(blocks[..|blocks| - 1]) + |blocks[|blocks| - 1]|
  }

  ghost predicate AllLocated(p: Pool) {
    forall k :: 0 <= k < |p.entries| ==> Located(p, k)
  }

  ghost predicate BlocksOk(p: Pool) {
    && (forall b :: 0 <= b < |p.blocks| ==> BlockOk(p, b))
    && |p.entries| <= Total(p.blocks)
  }

  ghost predicate WellFormed(p: Pool) {
    AllLocated(p) && Distinct(p) && MapsAgree(p) && BlocksOk(p)
  }

  // ---- strings in a block

  lemma {:induction false} CStringAt(text: seq<u16>, o: nat, s: WString)
    requires NulFree(s) && o + |s| < |text| && text[o..o + |s|] == s && text[o + |s|] == 0
    ensures CString(text, o) == s && Terminated(text, o)
    decreases |s|
  {
    if s != [] {
      assert s[0] == text[o] && s[0] in s;
      assert text[o + 1..o + 1 + |s[1..]|] == s[1..];
      CStringAt(text, o + 1, s[1..]);
      assert s == [s[0]] + s[1..];
    }
  }

  lemma {:induction false} CStringStays(text: seq<u16>, more: seq<u16>, o: nat)
    requires Terminated(text, o)
    ensures CString(text + more, o) == CString(text, o) && Terminated(text + more, o)
    decreases |text| - o
  {
    var e :| o <= e < |text| && text[e] == 0;
    assert (text + more)[e] == 0;
    if text[o] != 0 {
      CStringStays(text, more, o + 1);
    }
  }

  /** An insertion leaves every location that was handed out decoding to the same string. */
  lemma LocationStays(p: Pool, i: nat, s: WString, at: Indices)
    requires i <= |p.blocks| && at.first < |p.blocks| && Terminated(p.blocks[at.first], at.second)
    ensures var p' := p.(blocks := WithString(p.blocks, i, s));
            GetString(p', at) == GetString(p, at) && at.first < |p'.blocks| && Terminated(p'.blocks[at.first], at.second)
  {
    if i < |p.blocks| && at.first == i {
      CStringStays(p.blocks[i], s + [0], at.second);
      assert p.blocks[i] + s + [0] == p.blocks[i] + (s + [0]);
    }
  }

  /** The new string is found at its location when the index of its block was not cut. */
  lemma NewStringIsThere(p: Pool, s: WString)
    requires Fits(s) && NulFree(s) && FirstFit(p.blocks, |s| + 1) < BLOCKS
    ensures var p' := p.(blocks := WithString(p.blocks, FirstFit(p.blocks, |s| + 1), s)); var at := Location(p.blocks, s);
            GetString(p', at) == s && at.first < |p'.blocks| && Terminated(p'.blocks[at.first], at.second)
  {
    hide CString, Terminated, FirstFit;
    var i := FirstFit(p.blocks, |s| + 1);
    var front := if i < |p.blocks| then p.blocks[i] else [];
    Appended(front, s);
    assert WithString(p.blocks, i, s)[i] == front + s + [0];
  }

  lemma Appended(front: seq<u16>, s: WString)
    requires NulFree(s)
    ensures CString(front + s + [0], |front|) == s && Terminated(front + s + [0], |front|)
  {
    var block := front + s + [0];
    assert block[|front|..|front| + |s|] == s;
    CStringAt(block, |front|, s);
  }

  lemma {:induction false} TotalGrows(blocks: seq<seq<u16>>, i: nat, s: WString)
    requires i <= |blocks|
    ensures Total(WithString(blocks, i, s)) == Total(blocks) + |s| + 1
  {
    var after := WithString(blocks, i, s);
    if i == |blocks| {
      assert after[..|blocks|] == blocks;
    } else if i < |blocks| - 1 {
      TotalGrows(blocks[..|blocks| - 1], i, s);
      assert after[..|after| - 1] == WithString(blocks[..|blocks| - 1], i, s);
    } else {
      assert after[..|after| - 1] == blocks[..|blocks| - 1];
    }
  }

  // ---- an insertion keeps the pool well-formed

  /** What an insertion leaves alone. */
  lemma AddKeepsTexts(p: Pool, s: WString)
    requires AllLocated(p) && Fits(s)
    ensures |Add(p, s).entries| == |p.entries| + 1
    ensures forall k :: 0 <= k < |p.entries| ==> Add(p, s).entries[k] == p.entries[k] && Text(Add(p, s), k) == Text(p, k) && Located(Add(p, s), k)
  {
    hide CString, WithString, Terminated;
    var p' := Add(p, s);
    forall k | 0 <= k < |p.entries| ensures p'.entries[k] == p.entries[k] && Text(p', k) == Text(p, k) && Located(p', k) {
      assert Located(p, k);
      LocationStays(p, FirstFit(p.blocks, |s| + 1), s, p.entries[k]);
    }
  }

  /** Where the new entry is, and what the maps say of it. */
  lemma NewEntry(p: Pool, s: WString)
    requires Fits(s) && NulFree(s) && FirstFit(p.blocks, |s| + 1) < BLOCKS
    ensures var p' := Add(p, s);
            && |p'.entries| == |p.entries| + 1 && Text(p', |p.entries|) == s && Located(p', |p.entries|)
            && p'.byIndex == (if s in p.byIndex then p.byIndex else p.byIndex[s := |p.entries|])
            && p'.byIndices == (if s in p.byIndices then p.byIndices else p.byIndices[s := p'.entries[|p.entries|]])
  {
    hide CString, WithString, Terminated, FirstFit, Location;
    NewStringIsThere(p, s);
  }

  /** One more entry, with a string that no entry had. */
  ghost predicate OneMore(p: Pool, p': Pool, s: WString) {
    && |p'.entries| == |p.entries| + 1 && Text(p', |p.entries|) == s && Located(p', |p.entries|)
    && forall k :: 0 <= k < |p.entries| ==>
         p'.entries[k] == p.entries[k] && Text(p', k) == Text(p, k) && Text(p, k) != s && Located(p', k)
  }

  lemma AddAddsOne(p: Pool, s: WString)
    requires AllLocated(p) && MapsAgree(p) && Fits(s) && NulFree(s) && s !in p.byIndex && FirstFit(p.blocks, |s| + 1) < BLOCKS
    ensures OneMore(p, Add(p, s), s)
  {
    hide Add, Text, FirstFit, Located, AllLocated;
    AddKeepsTexts(p, s);
    NewEntry(p, s);
    forall k | 0 <= k < |p.entries| ensures Text(p, k) != s {
      assert Text(p, k) in p.byIndex;
    }
  }

  lemma OneMoreKeepsDistinct(p: Pool, p': Pool, s: WString)
    requires Distinct(p) && OneMore(p, p', s)
    ensures Distinct(p') && AllLocated(p')
  {
    hide Text, Located;
  }

  lemma OneMoreKeepsMaps(p: Pool, p': Pool, s: WString)
    requires MapsAgree(p) && OneMore(p, p', s) && s !in p.byIndex
    requires p'.byIndex == p.byIndex[s := |p.entries|] && p'.byIndices == p.byIndices[s := p'.entries[|p.entries|]]
    ensures MapsAgree(p')
  {
    hide Text, Located;
  }

  lemma AddKeepsMaps(p: Pool, s: WString)
    requires AllLocated(p) && MapsAgree(p) && Distinct(p)
    requires Fits(s) && NulFree(s) && s !in p.byIndex && FirstFit(p.blocks, |s| + 1) < BLOCKS
    ensures AllLocated(Add(p, s)) && MapsAgree(Add(p, s)) && Distinct(Add(p, s))
    ensures |Add(p, s).entries| == |p.entries| + 1 && Text(Add(p, s), |p.entries|) == s
  {
    hide Add, Text, FirstFit, Located, AllLocated, Distinct;
    AddAddsOne(p, s);
    NewEntry(p, s);
    OneMoreKeepsDistinct(p, Add(p, s), s);
    OneMoreKeepsMaps(p, Add(p, s), s);
  }

  /** No block gets too long, and there is at most one more. */
  lemma WithStringFits(blocks: seq<seq<u16>>, s: WString, b: nat)
    requires Fits(s) && forall c :: 0 <= c < |blocks| ==> |blocks[c]| <= BLOCK_SIZE
    requires b < |WithString(blocks, FirstFit(blocks, |s| + 1), s)|
    ensures |WithString(blocks, FirstFit(blocks, |s| + 1), s)[b]| <= BLOCK_SIZE && b <= |blocks|
    ensures b == |blocks| ==> FirstFit(blocks, |s| + 1) == |blocks|
  {
  }

  lemma AddKeepsBlock(p: Pool, s: WString, b: nat)
    requires BlocksOk(p) && Fits(s) && b < |Add(p, s).blocks|
    ensures BlockOk(Add(p, s), b)
  {
    hide CString, FirstFit, WithString, Total;
    forall c | 0 <= c < |p.blocks| ensures |p.blocks[c]| <= BLOCK_SIZE {
      assert BlockOk(p, c);
    }
    WithStringFits(p.blocks, s, b);
    if b < |p.blocks| {
      assert BlockOk(p, b);
      var k: nat :| Starts(p, b, k);
      assert Starts(Add(p, s), b, k);
    } else {
      assert Starts(Add(p, s), b, |p.entries|);
    }
  }

  lemma AddKeepsBlocks(p: Pool, s: WString)
    requires BlocksOk(p) && Fits(s)
    ensures BlocksOk(Add(p, s))
  {
    hide CString, FirstFit, WithString, BlockOk;
    TotalGrows(p.blocks, FirstFit(p.blocks, |s| + 1), s);
    forall b | 0 <= b < |Add(p, s).blocks| ensures BlockOk(Add(p, s), b) {
      AddKeepsBlock(p, s, b);
    }
  }

  lemma AddKeepsWellFormed(p: Pool, s: WString)
    requires WellFormed(p) && Fits(s) && NulFree(s) && s !in p.byIndex && FirstFit(p.blocks, |s| + 1) < BLOCKS
    ensures WellFormed(Add(p, s))
  {
    hide Add, AllLocated, Distinct, MapsAgree, BlocksOk, FirstFit;
    AddKeepsMaps(p, s);
    AddKeepsBlocks(p, s);
  }

  lemma AddOneEntry(p: Pool, s: WString)
    requires Fits(s)
    ensures |Add(p, s).entries| == |p.entries| + 1 && Add(p, s).entries[..|p.entries|] == p.entries
    ensures Add(p, s).blocks == WithString(p.blocks, FirstFit(p.blocks, |s| + 1), s)
  {
    hide CString, FirstFit, WithString;
  }

  /** Two entries have the same location. */
  ghost predicate Collides(p: Pool) {
    exists j, k :: 0 <= j < k < |p.entries| && p.entries[j] == p.entries[k]
  }

  lemma CollisionIsNotDistinct(p: Pool)
    requires Collides(p)
    ensures !Distinct(p) && !WellFormed(p)
  {
    var j, k :| 0 <= j < k < |p.entries| && p.entries[j] == p.entries[k];
    assert Text(p, j) == Text(p, k);
  }

  lemma FirstOfBlock(p: Pool, b: nat) returns (k: nat)
    requires BlocksOk(p) && b < |p.blocks| && b < BLOCKS
    ensures k < |p.entries| && p.entries[k] == Indices(b, 0)
  {
    assert BlockOk(p, b);
    k :| Starts(p, b, k);
  }

  /** A string that would open the block with index 65536 gets the location of the first string of all. */
  lemma CutIndexCollides(p: Pool, s: WString)
    requires BlocksOk(p) && Fits(s) && FirstFit(p.blocks, |s| + 1) == BLOCKS == |p.blocks|
    ensures Collides(Add(p, s)) && !WellFormed(Add(p, s))
  {
    hide CString, WithString, FirstFit, WellFormed, BlocksOk;
    var p' := Add(p, s);
    var k := FirstOfBlock(p, 0);
    assert p'.entries[|p.entries|] == Indices(0, 0) == p'.entries[k];
    CollisionIsNotDistinct(p');
  }

  /** A string that is there already, one that fits no block, and one for which a block with an index
      below 65536 has room or can be opened. */
  predicate HasRoom(p: Pool, s: WString) {
    s in p.byIndex || !Fits(s) || FirstFit(p.blocks, |s| + 1) < BLOCKS
  }

  /** Inserting a NUL-free string keeps the pool well-formed if and only if there is room for it in a
      block whose index needs no more than 16 bits. */
  lemma InsertKeepsIff(p: Pool, s: WString)
    requires WellFormed(p) && NulFree(s) && |p.blocks| <= BLOCKS
    ensures WellFormed(InsertForIndex(p, s).0) <==> HasRoom(p, s)
  {
    hide Add, WellFormed, FirstFit;
    if s !in p.byIndex && Fits(s) {
      if FirstFit(p.blocks, |s| + 1) < BLOCKS {
        AddKeepsWellFormed(p, s);
      } else {
        PartsOf(p);
        CutIndexCollides(p, s);
      }
    }
  }

  lemma PartsOf(p: Pool)
    requires WellFormed(p)
    ensures AllLocated(p) && Distinct(p) && MapsAgree(p) && BlocksOk(p)
  {
    hide AllLocated, Distinct, MapsAgree, BlocksOk;
  }

  /** Some entry has the string. */
  ghost predicate Knows(p: Pool, s: WString) {
    exists k :: 0 <= k < |p.entries| && Text(p, k) == s
  }

  lemma KnownByTheMap(p: Pool, s: WString)
    requires MapsAgree(p)
    ensures s in p.byIndex <==> Knows(p, s)
    ensures s in p.byIndex ==> p.byIndex[s] < |p.entries| && Text(p, p.byIndex[s]) == s && p.byIndices[s] == p.entries[p.byIndex[s]]
    ensures s in p.byIndex <==> s in p.byIndices
  {
    hide Text;
  }

  /** What an insertion comes to: `p'` has the entries of `p`, and one more exactly if the string is new
      and shorter than a block; entry `r` of it, if there is a result, has the string. */
  ghost predicate Inserted(p: Pool, s: WString, p': Pool, r: Option<nat>) {
    && (r == None <==> !Knows(p, s) && |s| >= 0xFFFF)
    && (if Knows(p, s) || r == None then p' == p else |p'.entries| == |p.entries| + 1)
    && (r.Some? ==> r.value < |p'.entries| && Text(p', r.value) == s)
    && |p.entries| <= |p'.entries| && forall k :: 0 <= k < |p.entries| ==> p'.entries[k] == p.entries[k] && Text(p', k) == Text(p, k)
  }

  /** ... and the location `at` that is handed out is that of this entry, from which the string is read. */
  ghost predicate InsertedAt(p: Pool, s: WString, p': Pool, r: Option<nat>, at: Option<Indices>) {
    && Inserted(p, s, p', r) && (at.Some? <==> r.Some?)
    && (at.Some? ==> at.value == p'.entries[r.value] && GetString(p', at.value) == s)
  }

  /** The index that is handed out is that of the entry with the string. */
  lemma IndexNamesTheString(p: Pool, s: WString)
    requires WellFormed(p) && NulFree(s) && HasRoom(p, s)
    ensures Inserted(p, s, InsertForIndex(p, s).0, InsertForIndex(p, s).1) && WellFormed(InsertForIndex(p, s).0)
  {
    hide Add, Text, WellFormed, AllLocated, MapsAgree, Located, CString, Distinct, BlocksOk, Knows, FirstFit;
    PartsOf(p);
    KnownByTheMap(p, s);
    if s !in p.byIndex && Fits(s) {
      AddKeepsTexts(p, s);
      AddKeepsMaps(p, s);
      AddKeepsWellFormed(p, s);
    }
  }

  /** The two overloads do the same to the pool, and the location that the one hands out is that of the
      entry whose index the other does. */
  lemma OverloadsAgree(p: Pool, s: WString)
    requires WellFormed(p) && NulFree(s) && HasRoom(p, s)
    ensures InsertForIndex(p, s).0 == InsertForIndices(p, s).0
    ensures InsertedAt(p, s, InsertForIndices(p, s).0, InsertForIndex(p, s).1, InsertForIndices(p, s).1)
  {
    hide Add, WellFormed, AllLocated, MapsAgree, Located, CString, Distinct, BlocksOk, Knows, FirstFit, Location;
    PartsOf(p);
    KnownByTheMap(p, s);
    SameDomains(p, s);
    IndexNamesTheString(p, s);
    if s !in p.byIndex && Fits(s) {
      LastEntry(p, s);
    }
  }

  lemma LastEntry(p: Pool, s: WString)
    requires Fits(s)
    ensures |Add(p, s).entries| == |p.entries| + 1 && Add(p, s).entries[|p.entries|] == Location(p.blocks, s)
  {
    hide CString, FirstFit, WithString, Location;
  }

  /** Without room as well: with the same domain in both maps the pool becomes the same. */
  lemma SameDomains(p: Pool, s: WString)
    requires WellFormed(p)
    ensures InsertForIndex(p, s).0 == InsertForIndices(p, s).0
  {
    hide MapsAgree, Add, Text;
    PartsOf(p);
    KnownByTheMap(p, s);
  }

  // ---- queries

  lemma {:induction false} SearchFinds(p: Pool, s: WString, k: nat)
    requires MapsAgree(p) && k <= |p.entries| && (s in p.byIndex ==> k <= p.byIndex[s])
    ensures SearchFrom(p, s, k) == QueryIndex(p, s)
    decreases |p.entries| - k
  {
    if k < |p.entries| && Text(p, k) != s {
      SearchFinds(p, s, k + 1);
    }
  }

  /** The hash map and the linear search give the same answer for every string. */
  lemma QueryIsSearch(p: Pool, s: WString)
    requires WellFormed(p)
    ensures QueryIndex(p, s) == SearchFrom(p, s, 0)
  {
    SearchFinds(p, s, 0);
  }

  /** A query answers with the one entry that has the string, or with nothing if there is none. */
  lemma QueryIff(p: Pool, s: WString)
    requires WellFormed(p)
    ensures forall i: nat :: QueryIndex(p, s) == Some(i) <==> i < |p.entries| && Text(p, i) == s
    ensures QueryIndex(p, s) == None <==> !Knows(p, s)
    ensures QueryIndices(p, s) == (if QueryIndex(p, s) == None then None else Some(p.entries[QueryIndex(p, s).value]))
  {
    hide Text, AllLocated, BlocksOk, Knows;
    KnownByTheMap(p, s);
  }

  // ---- any sequence of insertions

  datatype Insertion = ForIndex(s: WString) | ForIndices(s: WString)

  function Grow(p: Pool, op: Insertion): Pool {
    match op
    case ForIndex(s) => InsertForIndex(p, s).0
    case ForIndices(s) => InsertForIndices(p, s).0
  }

  function Grown(ops: seq<Insertion>): Pool {
    if ops == [] then Cleared else Grow(Grown(ops[..|ops| - 1]), ops[|ops| - 1])
  }

  /** The strings that fit into a block, each where it occurs first. */
  function FirstOccurrences(ops: seq<Insertion>): seq<WString> {
    if ops == [] then []
    else
      var before, s := FirstOccurrences(ops[..|ops| - 1]), ops[|ops| - 1].s;
      if s in before || !Fits(s) then before else before + [s]
  }

  function Texts(p: Pool): seq<WString> {
    seq(|p.entries|, k requires 0 <= k < |p.entries| => Text(p, k))
  }

  /** The blocks that distinct strings fill, first fit. */
  function Packing(strings: seq<WString>): seq<seq<u16>> {
    if strings == [] then []
    else
      var blocks, s := Packing(strings[..|strings| - 1]), strings[|strings| - 1];
      WithString(blocks, FirstFit(blocks, |s| + 1), s)
  }

  /** The number of blocks that a sequence of insertions needs. */
  function BlocksNeeded(ops: seq<Insertion>): nat {
    |Packing(FirstOccurrences(ops))|
  }

  lemma PackingAppends(strings: seq<WString>, s: WString)
    ensures Packing(strings + [s]) == WithString(Packing(strings), FirstFit(Packing(strings), |s| + 1), s)
  {
    assert (strings + [s])[..|strings + [s]| - 1] == strings;
  }

  lemma NeedsOnlyGrow(ops: seq<Insertion>, op: Insertion)
    ensures BlocksNeeded(ops) <= BlocksNeeded(ops + [op])
    ensures FirstOccurrences(ops + [op]) == (if op.s in FirstOccurrences(ops) || !Fits(op.s) then FirstOccurrences(ops) else FirstOccurrences(ops) + [op.s])
  {
    hide FirstFit, Packing;
    assert (ops + [op])[..|ops + [op]| - 1] == ops;
    PackingAppends(FirstOccurrences(ops), op.s);
  }

  lemma GrowKeeps(p: Pool, op: Insertion)
    requires WellFormed(p) && NulFree(op.s) && |p.blocks| <= BLOCKS && HasRoom(p, op.s)
    ensures WellFormed(Grow(p, op))
    ensures Texts(Grow(p, op)) == (if op.s in p.byIndex || !Fits(op.s) then Texts(p) else Texts(p) + [op.s])
    ensures |p.entries| <= |Grow(p, op).entries| && forall k :: 0 <= k < |p.entries| ==>
              Grow(p, op).entries[k] == p.entries[k] && Text(Grow(p, op), k) == Text(p, k)
  {
    hide Add, WellFormed, AllLocated, Distinct, MapsAgree, BlocksOk, Located, CString, FirstFit, Text;
    var s := op.s;
    SameDomains(p, s);
    InsertKeepsIff(p, s);
    if s !in p.byIndex && Fits(s) {
      PartsOf(p);
      AddKeepsTexts(p, s);
      AddKeepsMaps(p, s);
    }
  }

  /** The hash map knows exactly the strings of the entries. */
  lemma KnownStrings(p: Pool, s: WString)
    requires WellFormed(p)
    ensures s in p.byIndex <==> s in Texts(p)
  {
    hide AllLocated, Distinct, BlocksOk, Text;
    if s in p.byIndex {
      assert Texts(p)[p.byIndex[s]] == s;
    }
  }

  /** A collision stays for ever. */
  lemma GrowKeepsCollision(p: Pool, op: Insertion)
    requires Collides(p)
    ensures Collides(Grow(p, op))
  {
    hide Add;
    if Fits(op.s) {
      AddOneEntry(p, op.s);
    }
    var j, k :| 0 <= j < k < |p.entries| && p.entries[j] == p.entries[k];
    assert Grow(p, op).entries[..|p.entries|] == p.entries;
    assert Grow(p, op).entries[j] == p.entries[j] && Grow(p, op).entries[k] == p.entries[k];
  }

  /** What any sequence of insertions comes to, in terms of the strings inserted. */
  ghost predicate GrownAs(p: Pool, strings: seq<WString>) {
    if |Packing(strings)| <= BLOCKS then WellFormed(p) && Texts(p) == strings && p.blocks == Packing(strings)
    else Collides(p)
  }

  lemma GrowAsStrings(p: Pool, strings: seq<WString>, op: Insertion)
    requires GrownAs(p, strings) && |Packing(strings)| <= BLOCKS && NulFree(op.s)
    ensures GrownAs(Grow(p, op), if op.s in strings || !Fits(op.s) then strings else strings + [op.s])
  {
    hide Add, WellFormed, FirstFit, Texts, Collides, Packing;
    var s := op.s;
    KnownStrings(p, s);
    assert InsertForIndex(p, s).0 == InsertForIndices(p, s).0 by { SameDomains(p, s); }
    if s in strings || !Fits(s) {
      GrowKeeps(p, op);
    } else {
      PackingAppends(strings, s);
      AddOneEntry(p, s);
      if FirstFit(p.blocks, |s| + 1) < BLOCKS {
        GrowKeeps(p, op);
      } else {
        PartsOf(p);
        CutIndexCollides(p, s);
      }
    }
  }

  lemma {:induction false} GrownAsOccurrences(ops: seq<Insertion>)
    requires forall op :: op in ops ==> NulFree(op.s)
    ensures GrownAs(Grown(ops), FirstOccurrences(ops))
  {
    hide Grow, WellFormed, Collides, Packing;
    if ops == [] {
      ClearedIsWellFormed();
    } else {
      var front, op := ops[..|ops| - 1], ops[|ops| - 1];
      assert ops == front + [op];
      GrownAsOccurrences(front);
      NeedsOnlyGrow(front, op);
      if BlocksNeeded(front) <= BLOCKS {
        GrowAsStrings(Grown(front), FirstOccurrences(front), op);
      } else {
        GrowKeepsCollision(Grown(front), op);
      }
    }
  }

  lemma ClearedIsWellFormed()
    ensures WellFormed(Cleared) && Texts(Cleared) == [] && Packing([]) == []
  {
  }

  /** From `Clear`, over any sequence of the two overloads with NUL-free strings: the pool is well-formed
      if and only if the strings need at most 65536 blocks. */
  lemma {:induction false} WellFormedIff(ops: seq<Insertion>)
    requires forall op :: op in ops ==> NulFree(op.s)
    ensures WellFormed(Grown(ops)) <==> BlocksNeeded(ops) <= BLOCKS
  {
    hide WellFormed, Collides;
    GrownAsOccurrences(ops);
    if BlocksNeeded(ops) > BLOCKS {
      CollisionIsNotDistinct(Grown(ops));
    }
  }

  /** And then its entries are exactly the inserted strings that fit, each once, in the order of their
      first insertions, and its blocks are these strings packed. */
  lemma {:induction false} EveryStringOnce(ops: seq<Insertion>)
    requires BlocksNeeded(ops) <= BLOCKS && forall op :: op in ops ==> NulFree(op.s)
    ensures WellFormed(Grown(ops)) && Texts(Grown(ops)) == FirstOccurrences(ops)
    ensures Grown(ops).blocks == Packing(FirstOccurrences(ops))
  {
    hide WellFormed, Collides;
    GrownAsOccurrences(ops);
  }

  /** Every location that was handed out, and every index, keeps standing for its string. */
  lemma {:induction false} LocationsKeepDecoding(ops: seq<Insertion>, more: seq<Insertion>)
    requires BlocksNeeded(ops + more) <= BLOCKS && forall op :: op in ops + more ==> NulFree(op.s)
    ensures var p, p' := Grown(ops), Grown(ops + more);
            |p.entries| <= |p'.entries| && forall k :: 0 <= k < |p.entries| ==> p'.entries[k] == p.entries[k] && Text(p', k) == Text(p, k)
  {
    hide WellFormed, Text, Grow, Packing, BlocksNeeded;
    if more == [] {
      assert ops + more == ops;
    } else {
      var front, op := more[..|more| - 1], more[|more| - 1];
      assert ops + more == ops + front + [op];
      assert (ops + more)[..|ops + more| - 1] == ops + front;
      NeedsOnlyGrow(ops + front, op);
      LocationsKeepDecoding(ops, front);
      LastInsertionKeeps(ops + front, op);
    }
  }

  lemma LastInsertionKeeps(ops: seq<Insertion>, op: Insertion)
    requires BlocksNeeded(ops + [op]) <= BLOCKS && NulFree(op.s) && forall o :: o in ops ==> NulFree(o.s)
    ensures var p, p' := Grown(ops), Grow(Grown(ops), op);
            |p.entries| <= |p'.entries| && forall k :: 0 <= k < |p.entries| ==> p'.entries[k] == p.entries[k] && Text(p', k) == Text(p, k)
  {
    hide WellFormed, Text, Texts, Grow, Packing, FirstFit;
    var strings := FirstOccurrences(ops);
    NeedsOnlyGrow(ops, op);
    EveryStringOnce(ops);
    KnownStrings(Grown(ops), op.s);
    PackingAppends(strings, op.s);
    GrowKeeps(Grown(ops), op);
  }

  // ---- the bound can be passed

  /** Strings that fill a block each: the number is in the first two characters. */
  function Long(i: nat): WString
    requires i <= BLOCKS
  {
    [1 + i % 0x100, 1 + i / 0x100] + seq(BLOCK_SIZE - 3, _ => 1)
  }

  function LongStrings(k: nat): seq<WString>
    requires k <= BLOCKS + 1
  {
    seq(k, i requires 0 <= i < k => Long(i))
  }

  function Longs(k: nat): seq<Insertion>
    requires k <= BLOCKS + 1
  {
    seq(k, i requires 0 <= i < k => ForIndex(Long(i)))
  }

  lemma LongStringsDiffer(i: nat, j: nat)
    requires i <= BLOCKS && j <= BLOCKS && Long(i) == Long(j)
    ensures i == j
  {
    assert Long(i)[0] == Long(j)[0] && Long(i)[1] == Long(j)[1];
  }

  lemma NextLongIsNew(k: nat)
    requires 0 < k <= BLOCKS + 1
    ensures Long(k - 1) !in LongStrings(k - 1)
  {
    hide Long;
    var known := LongStrings(k - 1);
    forall i | 0 <= i < |known| ensures known[i] != Long(k - 1) {
      if Long(i) == Long(k - 1) { LongStringsDiffer(i, k - 1); }
    }
  }

  lemma LongFits(i: nat)
    requires i <= BLOCKS
    ensures NulFree(Long(i)) && |Long(i)| == BLOCK_SIZE - 1
  {
  }

  /** In full blocks there is no room. */
  ghost predicate AllFull(blocks: seq<seq<u16>>) {
    forall b :: 0 <= b < |blocks| ==> |blocks[b]| == BLOCK_SIZE
  }

  lemma NothingIsPacked()
    ensures FirstOccurrences([]) == [] && Packing([]) == [] && AllFull([])
  {
  }

  lemma FullTakesABlock(blocks: seq<seq<u16>>, s: WString)
    requires AllFull(blocks) && |s| == BLOCK_SIZE - 1
    ensures var after := WithString(blocks, FirstFit(blocks, |s| + 1), s); |after| == |blocks| + 1 && AllFull(after)
  {
  }

  lemma {:induction false} LongsNeedABlockEach(k: nat)
    requires k <= BLOCKS + 1
    ensures FirstOccurrences(Longs(k)) == LongStrings(k)
    ensures |Packing(LongStrings(k))| == k && AllFull(Packing(LongStrings(k)))
  {
    hide Long, FirstFit, Packing, WithString, AllFull, FirstOccurrences;
    if k == 0 {
      NothingIsPacked();
    } else {
      var s, before := Long(k - 1), LongStrings(k - 1);
      LongsNeedABlockEach(k - 1);
      assert Longs(k) == Longs(k - 1) + [ForIndex(s)] && LongStrings(k) == before + [s];
      LongFits(k - 1);
      NextLongIsNew(k);
      NeedsOnlyGrow(Longs(k - 1), ForIndex(s));
      PackingAppends(before, s);
      FullTakesABlock(Packing(before), s);
    }
  }

  lemma LongsAreNulFree(k: nat)
    requires k <= BLOCKS + 1
    ensures forall op :: op in Longs(k) ==> NulFree(op.s) && Fits(op.s)
  {
    hide Long;
    forall i | 0 <= i < k ensures NulFree(Long(i)) && Fits(Long(i)) {
      LongFits(i);
    }
  }

  /** 65537 strings that the code accepts, after which two entries have one location. */
  lemma TooManyBlocks()
    ensures (forall op :: op in Longs(BLOCKS + 1) ==> NulFree(op.s) && Fits(op.s))
    ensures Collides(Grown(Longs(BLOCKS + 1))) && !Distinct(Grown(Longs(BLOCKS + 1))) && !WellFormed(Grown(Longs(BLOCKS + 1)))
  {
    hide Longs, WellFormed, Distinct, Collides, Grown, Packing, FirstOccurrences, LongStrings;
    LongsAreNulFree(BLOCKS + 1);
    LongsNeedABlockEach(BLOCKS + 1);
    GrownAsOccurrences(Longs(BLOCKS + 1));
    CollisionIsNotDistinct(Grown(Longs(BLOCKS + 1)));
  }

  // ---- after loading

  /** `RefreshCaches`: an entry with an invalid index has no string. */
  function Refreshed(p: Pool, k: nat): Option<WString>
    requires k < |p.entries|
  {
    if p.entries[k].first == INVALID_INDEX || p.entries[k].second == INVALID_INDEX then None else Some(Text(p, k))
  }

  /** Refreshing gives every entry its string if and only if there are fewer than 65536 blocks: the
      strings of the last possible block look invalid. */
  lemma RefreshFindsAllIff(p: Pool)
    requires WellFormed(p) && |p.blocks| <= BLOCKS
    ensures (forall k :: 0 <= k < |p.entries| ==> Refreshed(p, k) == Some(Text(p, k))) <==> |p.blocks| < BLOCKS
  {
    forall k | 0 <= k < |p.entries| ensures p.entries[k].second != INVALID_INDEX && p.entries[k].first < |p.blocks| {
      assert Located(p, k);
      assert BlockOk(p, p.entries[k].first);
    }
    if |p.blocks| == BLOCKS {
      var k := FirstOfBlock(p, BLOCKS - 1);
      assert Refreshed(p, k) == None;
    }
  }

  /** 65536 strings that the code accepts, of which refreshing loses one. */
  lemma RefreshLosesAString()
    ensures var p := Grown(Longs(BLOCKS));
            WellFormed(p) && exists k :: 0 <= k < |p.entries| && Refreshed(p, k) == None
  {
    hide Longs, WellFormed, Grown, Packing, FirstOccurrences, LongStrings;
    LongsAreNulFree(BLOCKS);
    LongsNeedABlockEach(BLOCKS);
    EveryStringOnce(Longs(BLOCKS));
    RefreshFindsAllIff(Grown(Longs(BLOCKS)));
  }

  lemma {:induction false} TotalIsBounded(blocks: seq<seq<u16>>)
    requires forall b :: 0 <= b < |blocks| ==> |blocks[b]| <= BLOCK_SIZE
    ensures Total(blocks) <= |blocks| * BLOCK_SIZE
  {
    if blocks != [] {
      TotalIsBounded(blocks[..|blocks| - 1]);
    }
  }

  /** The index of an entry is never the invalid one. */
  lemma IndicesAreValid(p: Pool)
    requires WellFormed(p) && |p.blocks| <= BLOCKS
    ensures |p.entries| < INVALID_STRING
  {
    forall b | 0 <= b < |p.blocks| ensures |p.blocks[b]| <= BLOCK_SIZE {
      assert BlockOk(p, b);
    }
    TotalIsBounded(p.blocks);
  }
}
