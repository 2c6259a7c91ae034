/** The container class and the helper that appends to it. */
module LogprobsContainer {
  import opened Logprobs
  import opened Prelude

  datatype Sliced = Sliced(container: FlatLogprobs) | IndexError | ValueError

  class FlatLogprobs {
    var startIndices: seq<int>
    var endIndices: seq<int>
    var tokenIds: seq<int>
    var logprobs: seq<real>
    var ranks: seq<Option<int>>
    var decodedTokens: seq<Option<string>>

    ghost predicate SameLength()
      reads this
    {
      |tokenIds| == |logprobs| == |ranks| == |decodedTokens|
    }

    ghost function Items(): (items: seq<Item>)
      requires SameLength()
      reads this
      ensures |items| == |logprobs|
    {
      seq(|logprobs|, i requires 0 <= i < |logprobs| && SameLength() reads this =>
        Item(tokenIds[i], Logprob(logprobs[i], ranks[i], decodedTokens[i])))
    }

    ghost function Contents(): Flat
      requires SameLength()
      reads this
    {
      Flat(startIndices, endIndices, Items())
    }

    ghost predicate Ok()
      reads this
    {
      SameLength() && Valid(Contents())
    }

    constructor ()
      ensures Ok() && Contents() == Flat([], [], []) && View(Contents()) == []
    {
      startIndices, endIndices, tokenIds, logprobs, ranks, decodedTokens := [], [], [], [], [], [];
    }

    constructor Of(starts: seq<int>, ends: seq<int>, ids: seq<int>, probs: seq<real>, rs: seq<Option<int>>,
                   texts: seq<Option<string>>)
      ensures startIndices == starts && endIndices == ends && tokenIds == ids && logprobs == probs && ranks == rs
              && decodedTokens == texts
    {
      startIndices, endIndices, tokenIds, logprobs, ranks, decodedTokens := starts, ends, ids, probs, rs, texts;
    }

    /** One row at the end of every column. */
    method PushRow(id: int, logprob: real, rank: Option<int>, text: Option<string>)
      requires SameLength()
      modifies `tokenIds, `logprobs, `ranks, `decodedTokens
      ensures SameLength() && Items() == old(Items()) + [Item(id, Logprob(logprob, rank, text))]
    {
      tokenIds, logprobs := tokenIds + [id], logprobs + [logprob];
      ranks, decodedTokens := ranks + [rank], decodedTokens + [text];
    }

    method Append(dict: Option<seq<Item>>)
      requires Ok()
      modifies this
      ensures Ok() && Contents() == Appended(old(Contents()), ItemsOf(dict))
      ensures View(Contents()) == old(View(Contents())) + [Dict(ItemsOf(dict))]
    {
      ghost var was := Contents();
      startIndices := startIndices + [|logprobs|];
      if dict.Some? {
        for i := 0 to |dict.value|
          invariant SameLength() && Items() == was.items + dict.value[..i]
          invariant startIndices == was.starts + [|was.items|] && endIndices == was.ends
        {
          var item := dict.value[i];
          PushRow(item.token, item.value.logprob, item.value.rank, item.value.decodedToken);
          assert dict.value[..i + 1] == dict.value[..i] + [item];
        }
        assert dict.value[..|dict.value|] == dict.value;
      }
      endIndices := endIndices + [|logprobs|];
      assert Items() == was.items + ItemsOf(dict);
      AppendDenotes(was, ItemsOf(dict));
    }

    method AppendFast(ids: seq<int>, probs: seq<real>, rs: seq<int>, texts: seq<Option<string>>)
      requires Ok()
      modifies this
      ensures Ok() && Contents() == Appended(old(Contents()), Zip(ids, probs, rs, texts))
      ensures View(Contents()) == old(View(Contents())) + [Dict(Zip(ids, probs, rs, texts))]
    {
      ghost var was, items := Contents(), Zip(ids, probs, rs, texts);
      startIndices := startIndices + [|logprobs|];
      for i := 0 to Shortest(ids, probs, rs, texts)
        invariant SameLength() && Items() == was.items + items[..i]
        invariant startIndices == was.starts + [|was.items|] && endIndices == was.ends
      {
        PushRow(ids[i], probs[i], Some(rs[i]), texts[i]);
        assert items[..i + 1] == items[..i] + [items[i]];
      }
      endIndices := endIndices + [|logprobs|];
      assert items[..|items|] == items;
      AppendDenotes(was, items);
    }

    method Extend(dicts: seq<Option<seq<Item>>>)
      requires Ok()
      modifies this
      ensures Ok() && Contents() == Extended(old(Contents()), dicts)
    {
      for k := 0 to |dicts|
        invariant Ok() && Contents() == Extended(old(Contents()), dicts[..k])
      {
        assert dicts[..k + 1][..k] == dicts[..k];
        Append(dicts[k]);
      }
      assert dicts[..|dicts|] == dicts;
    }

    /** The dictionary at a position; negative positions count from the end. */
    method GetItem(index: int) returns (r: Option<Position>)
      requires Ok()
      ensures var n := |View(Contents())|;
              r == if 0 <= index < n then Some(View(Contents())[index])
                   else if -n <= index < 0 then Some(View(Contents())[n + index])
                   else None
    {
      var n := |startIndices|;
      if index < 0 - n || n <= index {
        return None;
      }
      var k := if index < 0 then n + index else index;
      var d: Position := map[];
      ghost var items := Items();
      for i := startIndices[k] to endIndices[k]
        invariant d == Dict(items[startIndices[k]..i])
      {
        DictGrows(items, startIndices[k], i);
        d := d[tokenIds[i] := Logprob(logprobs[i], ranks[i], decodedTokens[i])];
      }
      r := Some(d);
    }

    /** A slice: a new container with the columns cut out.  A positive step gives the list's slice. */
    method GetSlice(s: Slice) returns (r: Sliced)
      requires Ok()
      ensures r.ValueError? <==> StepOf(s) == 0
      ensures r.IndexError? <==> StepOf(s) != 0 && Picks(|startIndices|, s) == []
      ensures r.Sliced? ==>
                fresh(r.container) && r.container.SameLength() && InRange(Picks(|startIndices|, s), |startIndices|)
                            && r.container.Contents() == Cut(Contents(), Picks(|startIndices|, s))
      ensures r.Sliced? && StepOf(s) > 0 ==>
                r.container.Ok() && View(r.container.Contents()) == Picked(View(Contents()), Picks(|startIndices|, s))
    {
      if StepOf(s) == 0 {
        return ValueError;
      }
      var ps := Picks(|startIndices|, s);
      PicksInOrder(|startIndices|, s);
      if ps == [] {
        return IndexError;
      }
      var starts, ends := Picked(startIndices, ps), Picked(endIndices, ps);
      var lo, hi := starts[0], ends[|ends| - 1];
      var container :=
        new FlatLogprobs.Of(Shifted(starts, lo), Shifted(ends, lo), Sub(tokenIds, lo, hi), Sub(logprobs, lo, hi),
                                           Sub(ranks, lo, hi), Sub(decodedTokens, lo, hi));
      assert container.Items() == Sub(Items(), lo, hi);
      if StepOf(s) > 0 { CutDenotes(Contents(), ps); }
      r := Sliced(container);
    }
  }

  // ----- The helper

  function Shortest(ids: seq<int>, probs: seq<real>, rs: seq<int>, texts: seq<Option<string>>): nat {
    Min(Min(|ids|, |probs|), Min(|rs|, |texts|))
  }

  /** zip: as many rows as the shortest column has. */
  function Zip(ids: seq<int>, probs: seq<real>, rs: seq<int>, texts: seq<Option<string>>): (items: seq<Item>)
    ensures |items| == Shortest(ids, probs, rs, texts)
  {
    seq(Shortest(ids, probs, rs, texts), i requires 0 <= i < Shortest(ids, probs, rs, texts) =>
      Item(ids[i], Logprob(probs[i], Some(rs[i]), texts[i])))
  }

  /** The rank of the sampled token, then 1, 2, and so on. */
  function RanksOf(rank: int, numLogprobs: int, count: nat): seq<int> {
    var n := if numLogprobs == -1 then count else numLogprobs;
    [rank] + seq(if n < 0 then 0 else n, i => i + 1)
  }

  /** What the helper appends: a row for every token that has a log-probability, a text and a rank, the
      first with the given rank and the others with their place. */
  lemma RowsExactly(ids: seq<int>, probs: seq<real>, texts: seq<Option<string>>, rank: int, numLogprobs: int, i: nat)
    ensures var items := Zip(ids, probs, RanksOf(rank, numLogprobs, |probs|), texts);
            && (i < |items| <==>
                  && i < |ids| && i < |probs| && i < |texts|
                  && (i == 0 || i <= if numLogprobs == -1 then |probs| else numLogprobs))
            && (i < |items| ==> items[i] == Item(ids[i], Logprob(probs[i], Some(if i == 0 then rank else i), texts[i])))
  {
  }

  /** The dictionary comprehension of the list branch. */
  method BuildDict(ids: seq<int>, probs: seq<real>, rs: seq<int>, texts: seq<Option<string>>) returns (d: Position)
    ensures d == Dict(Zip(ids, probs, rs, texts))
  {
    d := map[];
    ghost var items := Zip(ids, probs, rs, texts);
    for i := 0 to Shortest(ids, probs, rs, texts)
      invariant d == Dict(items[..i])
    {
      d := d[ids[i] := Logprob(probs[i], Some(rs[i]), texts[i])];
      assert items[..i + 1][..i] == items[..i];
    }
    assert items[..|items|] == items;
  }

  /** Both branches of append_logprobs_for_next_position, on a container and on a list that it stands for:
      afterwards it still does. */
  method AppendBoth(flat: FlatLogprobs, list: List, ids: seq<int>, probs: seq<real>, texts: seq<Option<string>>,
                    rank: int, numLogprobs: int)
    returns (list': List)
    requires flat.Ok() && View(flat.Contents()) == Denoted(list)
    modifies flat
    ensures flat.Ok() && View(flat.Contents()) == Denoted(list')
    ensures list' == list + [Some(Dict(Zip(ids, probs, RanksOf(rank, numLogprobs, |probs|), texts)))]
  {
    var rs := RanksOf(rank, numLogprobs, |probs|);
    flat.AppendFast(ids, probs, rs, texts);
    var d := BuildDict(ids, probs, rs, texts);
    list' := list + [Some(d)];
  }
}
