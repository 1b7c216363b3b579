/** `StringBlock` and `StringMap` as objects that are filled in place; what they do to the pool of
    strings is what the functions of `StringPool` say. */
module InternedStrings {
  import opened Wrappers
  import opened DatacenterFormat
  import opened StringPool

  class Block {
    const text: array<u16>
    var used: nat

    ghost predicate Valid()
      reads this, text
    {
      used <= text.Length <= BLOCK_SIZE && forall i :: used <= i < text.Length ==> text[i] == 0
    }

    ghost function Used(): seq<u16>
      reads this, text
      requires Valid()
    {
      text[..used]
    }

    /** `AllocateBlock`; a bigger block is refused by the caller. */
    constructor (size: nat)
      requires size <= BLOCK_SIZE
      ensures Valid() && Used() == [] && text.Length == size && fresh(text)
    {
      text := new u16[size](_ => 0);
      used := 0;
    }

    /** The string is copied behind those that are there, with a NUL, if there is room for both. */
    method TryAddString(s: WString) returns (at: Option<u16>)
      requires Valid()
      modifies this, text
      ensures Valid()
      ensures if |old(Used())| + |s| + 1 <= text.Length
              then at == Some(|old(Used())|) && Used() == old(Used()) + s + [0]
              else at == None && Used() == old(Used())
    {
      var remaining := text.Length - used;
      if remaining < |s| + 1 {
        return None;
      }
      at := Some(used);
      for i := 0 to |s|
        invariant used == old(used) && text[..used] == old(Used()) && used + |s| < text.Length
        invariant text[used..used + i] == s[..i]
        invariant forall k :: used + |s| <= k < text.Length ==> text[k] == 0
      {
        text[used + i] := s[i];
      }
      used := used + |s|;
      text[used] := 0;
      used := used + 1;
    }

    /** The characters from a position up to a NUL. */
    method GetString(at: nat) returns (s: WString)
      requires Valid() && at < text.Length
      ensures s == CString(Used(), at)
      ensures at + |s| <= text.Length && s == text[at..at + |s|] && NulFree(s) && (at + |s| < text.Length ==> text[at + |s|] == 0)
    {
      var end := at;
      while end < text.Length && text[end] != 0
        invariant at <= end <= text.Length && 0 !in text[at..end]
        invariant at < used ==> end <= used && CString(Used(), at) == text[at..end] + CString(Used(), end)
        invariant at >= used ==> end == at
      {
        assert text[at..end + 1] == text[at..end] + [text[end]];
        end := end + 1;
      }
      s := text[at..end];
    }
  }

  class StringMapObject {
    var blocks: seq<Block>
    var entries: seq<Indices>
    var byIndex: map<WString, nat>
    var byIndices: map<WString, Indices>

    ghost function Parts(): set<object>
      reads this
    {
      (set b: Block | b in blocks :: b as object) + (set b: Block | b in blocks :: b.text as object)
    }

    ghost predicate Shape()
      reads this, Parts()
    {
      && (forall i, j :: 0 <= i < j < |blocks| ==> blocks[i] != blocks[j] && blocks[i].text != blocks[j].text)
      && (forall i :: 0 <= i < |blocks| ==> blocks[i].Valid() && blocks[i].text.Length == BLOCK_SIZE)
    }

    ghost function Contents(): (r: seq<seq<u16>>)
      requires Shape()
      reads this, Parts()
      ensures |r| == |blocks|
    {
      seq(|blocks|, i requires 0 <= i < |blocks| && Shape() reads this, Parts() => blocks[i].Used())
    }

    ghost function Model(): Pool
      requires Shape()
      reads this, Parts()
    {
      Pool(Contents(), entries, byIndex, byIndices)
    }

    constructor ()
      ensures Shape() && Model() == Cleared && StringPool.WellFormed(Model())
    {
      blocks, entries, byIndex, byIndices := [], [], map[], map[];
    }

    method Clear()
      modifies this
      ensures Shape() && Model() == Cleared && StringPool.WellFormed(Model())
    {
      blocks, entries, byIndex, byIndices := [], [], map[], map[];
    }

    method TryBlock(i: nat, s: WString) returns (offset: Option<u16>)
      requires Shape() && i < |blocks|
      modifies blocks[i], blocks[i].text
      ensures Shape()
      ensures if |old(Contents())[i]| + |s| + 1 <= BLOCK_SIZE
              then offset == Some(|old(Contents())[i]|) && Contents() == old(Contents())[i := old(Contents())[i] + s + [0]]
              else offset == None && Contents() == old(Contents())
    {
      ghost var before := Contents();
      assert before[i] == blocks[i].Used();
      offset := blocks[i].TryAddString(s);
      assert forall j :: 0 <= j < |blocks| && j != i ==> blocks[j].Used() == before[j];
    }

    /** `StringBlocks.AddItem`. */
    method AddItem(block: Block)
      requires Shape() && block.Valid() && block.text.Length == BLOCK_SIZE
      requires forall b :: b in blocks ==> b != block && b.text != block.text
      modifies this`blocks
      ensures Shape() && blocks == old(blocks) + [block] && Contents() == old(Contents()) + [block.Used()]
    {
      ghost var before := Contents();
      assert forall j :: 0 <= j < |blocks| ==> blocks[j].Used() == before[j];
      blocks := blocks + [block];
    }

    method AddBlock(s: WString) returns (offset: Option<u16>)
      requires Shape()
      modifies this`blocks
      ensures Shape() && fresh(Parts() - old(Parts()))
      ensures if Fits(s) then offset == Some(0) && Contents() == old(Contents()) + [s + [0]]
              else offset == None && Contents() == old(Contents())
    {
      hide Contents;
      var block := new Block(BLOCK_SIZE);
      offset := block.TryAddString(s);
      if offset != None {
        assert block.Used() == s + [0];
        AddItem(block);
      }
    }

    /** `InsertStringInBlock`: the first block that has room takes the string, or else a new one. */
    method InsertStringInBlock(s: WString) returns (at: Option<Indices>)
      requires Shape()
      modifies this`blocks, Parts()
      ensures Shape() && fresh(Parts() - old(Parts()))
      ensures at == if Fits(s) then Some(Location(old(Contents()), s)) else None
      ensures Contents() == if Fits(s) then WithString(old(Contents()), FirstFit(old(Contents()), |s| + 1), s) else old(Contents())
    {
      hide Shape, Contents, FirstFit;
      ghost var before := Contents();
      for i := 0 to |blocks|
        invariant blocks == old(blocks) && Shape() && Contents() == before
        invariant forall j :: 0 <= j < i ==> |before[j]| + |s| + 1 > BLOCK_SIZE
      {
        assert blocks[i] in blocks;
        var offset := TryBlock(i, s);
        if offset.Some? {
          FirstFitIs(before, |s| + 1, i);
          return Some(Indices(i % BLOCKS, offset.value));
        }
      }
      FirstFitIs(before, |s| + 1, |before|);
      var index := |blocks|;
      var offset := AddBlock(s);
      if offset == None {
        return None;
      }
      at := Some(Indices(index % BLOCKS, offset.value));
    }

    /** `GetString( TBlockIndices )`. */
    method GetString(at: Indices) returns (s: WString)
      requires Shape() && at.first < |blocks| && at.second < BLOCK_SIZE
      ensures Shape() && Model() == old(Model()) && s == StringPool.GetString(Model(), at)
    {
      s := blocks[at.first].GetString(at.second);
    }

    method AddEntry(at: Indices)
      requires Shape() && at.first < |blocks| && at.second < BLOCK_SIZE
      modifies this`entries, this`byIndex, this`byIndices
      ensures Shape() && entries == old(entries) + [at] && Contents() == old(Contents())
      ensures var key := StringPool.GetString(old(Model()), at);
              && byIndex == (if key in old(byIndex) then old(byIndex) else old(byIndex)[key := |old(entries)|])
              && byIndices == (if key in old(byIndices) then old(byIndices) else old(byIndices)[key := at])
    {
      hide StringPool.GetString;
      var key := GetString(at);
      byIndices := if key in byIndices then byIndices else byIndices[key := at];
      byIndex := if key in byIndex then byIndex else byIndex[key := |entries|];
      entries := entries + [at];
    }

    lemma LocationInRange(c: seq<seq<u16>>, s: WString)
      requires Fits(s)
      ensures Location(c, s).first < |WithString(c, FirstFit(c, |s| + 1), s)| && Location(c, s).second < BLOCK_SIZE
    {
    }

    /** A string that is not there yet is put into a block and gets an entry. */
    method Insert(s: WString) returns (at: Option<Indices>)
      requires Shape()
      modifies this, Parts()
      ensures Shape() && fresh(Parts() - old(Parts()))
      ensures Model() == if Fits(s) then Add(old(Model()), s) else old(Model())
      ensures at == if Fits(s) then Some(Location(old(Contents()), s)) else None
    {
      hide Shape, Contents, FirstFit, Location, WithString, StringPool.GetString;
      at := InsertStringInBlock(s);
      if at.Some? {
        LocationInRange(old(Contents()), s);
        AddEntry(at.value);
      }
    }

    /** `InsertString` for an index. */
    method InsertStringForIndex(s: WString) returns (index: Option<nat>)
      requires Shape()
      modifies this, Parts()
      ensures Shape() && fresh(Parts() - old(Parts()))
      ensures (Model(), index) == InsertForIndex(old(Model()), s)
      ensures old(StringPool.WellFormed(Model()) && HasRoom(Model(), s)) && NulFree(s) ==>
              StringPool.WellFormed(Model()) && Inserted(old(Model()), s, Model(), index)
    {
      hide Shape, Contents, Add, StringPool.WellFormed, HasRoom, Inserted, NulFree;
      if StringPool.WellFormed(Model()) && NulFree(s) && HasRoom(Model(), s) {
        IndexNamesTheString(Model(), s);
      }
      if s in byIndex {
        return Some(byIndex[s]);
      }
      index := Some(|entries|);
      var at := Insert(s);
      if at == None {
        return None;
      }
    }

    /** `InsertString` for a location. */
    method InsertStringForIndices(s: WString) returns (at: Option<Indices>)
      requires Shape()
      modifies this, Parts()
      ensures Shape() && fresh(Parts() - old(Parts()))
      ensures (Model(), at) == InsertForIndices(old(Model()), s)
      ensures old(StringPool.WellFormed(Model()) && HasRoom(Model(), s)) && NulFree(s) ==>
              StringPool.WellFormed(Model()) && exists index :: InsertedAt(old(Model()), s, Model(), index, at)
    {
      hide Shape, Contents, Add, StringPool.WellFormed, HasRoom, InsertedAt, NulFree;
      if StringPool.WellFormed(Model()) && NulFree(s) && HasRoom(Model(), s) {
        IndexNamesTheString(Model(), s);
        OverloadsAgree(Model(), s);
      }
      if s in byIndices {
        return Some(byIndices[s]);
      }
      at := Insert(s);
    }

    /** `SearchIndex`: the linear search, which finds what the map knows. */
    method SearchIndex(s: WString) returns (index: Option<nat>)
      requires Shape() && StringPool.WellFormed(Model())
      ensures index == SearchFrom(Model(), s, 0) == StringPool.QueryIndex(Model(), s)
      ensures (index == None <==> !Knows(Model(), s)) && (index.Some? ==> index.value < |entries| && StringPool.Text(Model(), index.value) == s)
    {
      hide Shape, Contents, StringPool.WellFormed, Knows;
      QueryIsSearch(Model(), s);
      QueryIff(Model(), s);
      for i := 0 to |entries|
        invariant Shape() && Model() == old(Model())
        invariant SearchFrom(Model(), s, 0) == SearchFrom(Model(), s, i)
      {
        EntryInRange(i);
        var text := GetString(entries[i]);
        if text == s {
          return Some(i);
        }
      }
      return None;
    }

    lemma EntryInRange(i: nat)
      requires Shape() && StringPool.WellFormed(Model()) && i < |entries|
      ensures entries[i].first < |blocks| && entries[i].second < BLOCK_SIZE
    {
      assert Located(Model(), i);
      assert BlockOk(Model(), entries[i].first);
    }

    lemma FirstFitIs(c: seq<seq<u16>>, n: nat, i: nat)
      requires i <= |c| && (i < |c| ==> |c[i]| + n <= BLOCK_SIZE) && forall j :: 0 <= j < i ==> |c[j]| + n > BLOCK_SIZE
      ensures FirstFit(c, n) == i
    {
    }
  }
}
