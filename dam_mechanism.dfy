/** The decision steps of the tree auction's nodes (algo/dam/mechanism.ts).

    A node's `run()` is taken as a step sequence over the payloads it
    receives, which are its inputs here: the seller receives one gather
    message per child and the ledger of the child it scatters to; a buyer
    receives the diffusion from its parent, one gather message per child,
    the scatter from its parent and, when it resells, the ledger of the child
    it resells to. What a run sends and returns is its result. The ranking
    of the children's reports sorts an array in place, as the source does. */
module DamMechanism {
  import opened Wrappers
  import Algorithm
  import Collection
  import Sorting
  import opened DamMessage

  /** What one child reported in the gather round, with the child's position. */
  datatype Response = Response(index: nat, subtreeMax: int)

  /** The sort key of `(a, b) => a.subtree_max > b.subtree_max ? -1 : 1`:
      largest reports first. */
  function Descending(r: Response): int {
    -r.subtreeMax
  }

  /** The largest value. */
  function Largest(values: seq<int>): (m: int)
    requires |values| >= 1
    ensures m in values && forall x :: x in values ==> x <= m
  {
    assert values == [values[0]] + values[1..];
    Algorithm.Max(values[0], values[1..])
  }

  /** The second price: the largest value once one occurrence of the largest
      has been taken out (equal to the largest when it occurs twice). */
  function SecondLargest(values: seq<int>): (s: int)
    requires |values| >= 2
    ensures s <= Largest(values)
  {
    var rest := Collection.RemoveElement(values, Largest(values));
    var s := Largest(rest);
    assert s in multiset(rest) && s in multiset(values);
    assert s in values;
    s
  }

  /** `remove_element` drops the entry at one position `f` holding the
      needle and shifts the later entries down by one. */
  lemma RemovedAt(values: seq<int>, needle: int) returns (f: nat)
    requires needle in values
    ensures f < |values| && values[f] == needle
    ensures var rest := Collection.RemoveElement(values, needle);
            && |rest| == |values| - 1
            && forall q :: 0 <= q < |rest| ==> rest[q] == values[if q < f then q else q + 1]
  {
    f := Collection.IndexOf(values, needle);
    var rest := values[..f] + values[f + 1..];
    assert Collection.RemoveElement(values, needle) == rest;
    forall q | 0 <= q < |rest|
      ensures rest[q] == values[if q < f then q else q + 1]
    {
    }
  }

  /** What the ranking of the reports yields: the position of a child
      reporting the largest value, that value and the second price. */
  datatype Ranking = Ranking(maxIndex: nat, top: int, second: int)

  /** The message JavaScript gives when a property of `undefined` is read. */
  function Undefined(property: string): string {
    "TypeError: Cannot read properties of undefined (reading '" + property + "')"
  }

  /** The responses as `children.map((node, i) => ...)` builds them. */
  function Responses(values: seq<int>): (rs: seq<Response>)
    ensures |rs| == |values|
    ensures forall k :: 0 <= k < |values| ==> rs[k] == Response(k, values[k])
  {
    seq(|values|, k requires 0 <= k < |values| => Response(k, values[k]))
  }

  /** The responses as an array, sorted in place with the comparator of
      `responses.sort`, largest report first. */
  method SortResponses(values: seq<int>) returns (a: array<Response>)
    ensures fresh(a)
    ensures multiset(a[..]) == multiset(Responses(values))
    ensures Sorting.SortedBy(a[..], Descending)
  {
    var rs := Responses(values);
    a := new Response[|values|](k requires 0 <= k < |values| => rs[k]);
    assert a[..] == rs;
    Sorting.SortBy(a, Descending);
  }

  /** Sorts the responses, largest report first, and reads the first two:
      `[0].index`, `[0].subtree_max`, `[1].subtree_max`. With no report the
      first read fails, with one report the second. */
  method Rank(values: seq<int>) returns (r: Result<Ranking>)
    ensures |values| == 0 ==> r == Err(Undefined("index"))
    ensures |values| == 1 ==> r == Err(Undefined("subtree_max"))
    ensures |values| >= 2 ==> r.Ok?
    ensures r.Ok? ==>
              && r.value.maxIndex < |values| && values[r.value.maxIndex] == r.value.top
              && r.value.top == Largest(values) && r.value.second == SecondLargest(values)
  {
    var a := SortResponses(values);
    RearrangedResponses(values, a[..]);
    if a.Length == 0 {
      return Err(Undefined("index"));
    }
    if a.Length == 1 {
      return Err(Undefined("subtree_max"));
    }
    RankingOfSorted(values, a[..]);
    r := Ok(Ranking(a[0].index, a[0].subtreeMax, a[1].subtreeMax));
  }

  /** A sequence holding each value at most once counts each at most once. */
  lemma {:induction false} DistinctCounts(rs: seq<Response>)
    requires forall p, q :: 0 <= p < q < |rs| ==> rs[p] != rs[q]
    ensures forall x :: multiset(rs)[x] <= 1
  {
    if rs != [] {
      var init := rs[..|rs| - 1];
      DistinctCounts(init);
      assert rs == init + [rs[|rs| - 1]];
      assert rs[|rs| - 1] !in init;
    }
  }

  /** When no value occurs twice in `rs`, the first two entries of any
      rearrangement of it differ. */
  lemma FirstTwoDiffer(rs: seq<Response>, s: seq<Response>)
    requires forall x :: multiset(rs)[x] <= 1
    requires multiset(s) == multiset(rs) && |s| >= 2
    ensures s[0] != s[1]
  {
    assert s == [s[0], s[1]] + s[2..];
    assert multiset(s) == multiset([s[0], s[1]]) + multiset(s[2..]);
    assert multiset([s[0], s[1]])[s[0]] == 1 + (if s[1] == s[0] then 1 else 0);
    assert multiset(s)[s[0]] <= 1;
  }

  /** Every entry of a rearrangement of the responses is one child's
      response, and every child's response is one of its entries. */
  lemma RearrangedResponses(values: seq<int>, s: seq<Response>)
    requires multiset(s) == multiset(Responses(values))
    ensures |s| == |values|
    ensures forall p :: 0 <= p < |s| ==> s[p].index < |values| && s[p].subtreeMax == values[s[p].index]
    ensures forall k :: 0 <= k < |values| ==> Response(k, values[k]) in s
  {
    var rs := Responses(values);
    assert |s| == |values| by {
      assert |multiset(s)| == |multiset(rs)|;
    }
    forall p | 0 <= p < |s|
      ensures s[p].index < |values| && s[p].subtreeMax == values[s[p].index]
    {
      assert s[p] in multiset(rs);
      var k :| 0 <= k < |rs| && rs[k] == s[p];
    }
    forall k | 0 <= k < |values|
      ensures Response(k, values[k]) in s
    {
      assert rs[k] in multiset(s);
    }
  }

  /** Read off the sorted responses: the first is a largest report, and the
      second is the largest report of any other child. */
  lemma RankingOfSorted(values: seq<int>, s: seq<Response>)
    requires |values| >= 2
    requires multiset(s) == multiset(Responses(values))
    requires Sorting.SortedBy(s, Descending)
    ensures |s| == |values|
    ensures s[0].index < |values| && values[s[0].index] == s[0].subtreeMax
    ensures s[0].subtreeMax == Largest(values)
    ensures s[1].subtreeMax == SecondLargest(values)
  {
    RearrangedResponses(values, s);
    DistinctCounts(Responses(values));
    FirstTwoDiffer(Responses(values), s);
    var i, j := s[0].index, s[1].index;
    forall k | 0 <= k < |values|
      ensures values[k] <= values[i]
      ensures k != i ==> values[k] <= values[j]
    {
      var p :| 0 <= p < |s| && s[p] == Response(k, values[k]);
      assert 0 < p ==> Descending(s[0]) <= Descending(s[p]);
      assert 1 < p ==> Descending(s[1]) <= Descending(s[p]);
    }
    SecondOfTwoPositions(values, i, j);
  }

  /** The second price is the value at position `j` whenever `i` holds a
      largest value and `j` the largest value of the other positions. */
  lemma SecondOfTwoPositions(values: seq<int>, i: nat, j: nat)
    requires i < |values| && j < |values| && i != j
    requires forall k :: 0 <= k < |values| ==> values[k] <= values[i]
    requires forall k :: 0 <= k < |values| && k != i ==> values[k] <= values[j]
    ensures values[i] == Largest(values) && values[j] == SecondLargest(values)
  {
    var m := Largest(values);
    var km :| 0 <= km < |values| && values[km] == m;
    assert values[i] in values;
    var rest := Collection.RemoveElement(values, m);
    var f := RemovedAt(values, m);
    ShiftedOut(values, rest, i, j, f);
    assert Largest(rest) in rest;
  }

  /** `rest` is `values` without position `f`, which holds a largest value
      as `i` does; then the largest value of the positions other than `i`
      (at `j`) is the largest of `rest`. */
  lemma ShiftedOut(values: seq<int>, rest: seq<int>, i: nat, j: nat, f: nat)
    requires i < |values| && j < |values| && f < |values| && i != j && values[f] == values[i]
    requires forall k :: 0 <= k < |values| && k != i ==> values[k] <= values[j]
    requires |rest| == |values| - 1
    requires forall q :: 0 <= q < |rest| ==> rest[q] == values[if q < f then q else q + 1]
    ensures values[j] in rest && forall x :: x in rest ==> x <= values[j]
  {
    forall x | x in rest
      ensures x <= values[j]
    {
      var q :| 0 <= q < |rest| && rest[q] == x;
      var k := if q < f then q else q + 1;
      assert x == values[k] && k != f;
    }
    if j != f {
      assert rest[if j < f then j else j - 1] == values[j];
    } else {
      assert rest[if i < f then i else i - 1] == values[i];
    }
  }

  /** A ledger line of the node that keeps the item: it pays the offered price. */
  function KeepLine(me: NodeId, offered: int): TransactionUnit {
    TransactionUnit(me, -offered, true)
  }

  /** A ledger line of a node that resells: it earns its resale price minus
      the price it was offered. */
  function ResellLine(me: NodeId, resale: int, offered: int): TransactionUnit {
    TransactionUnit(me, resale - offered, false)
  }

  /** The seller's part of a run. */
  datatype SellerRound = SellerRound(diffusion: RawMsg, scatterTo: NodeId, scatter: RawMsg, ledger: seq<TransactionUnit>)

  predicate AllGather(msgs: seq<RawMsg>) {
    forall k :: 0 <= k < |msgs| ==> msgs[k].Gather?
  }

  /** The reported values of gather messages. */
  function Reports(msgs: seq<RawMsg>): (vs: seq<int>)
    requires AllGather(msgs)
    ensures |vs| == |msgs| && forall k :: 0 <= k < |msgs| ==> vs[k] == msgs[k].subtreeMax
  {
    seq(|msgs|, k requires 0 <= k < |msgs| => msgs[k].subtreeMax)
  }

  /** `DAMSellerNode.run`: diffuses the item to every child, ranks the
      children's reports, scatters the second price to a child reporting the
      largest value, and returns the ledger that child sends back as it is.
      `gathered[k]` is what `children[k]` sent in the gather round and
      `answer` what the chosen child sent in the last round. */
  method SellerRun(me: NodeId, item: Item, children: seq<NodeId>, gathered: seq<RawMsg>, answer: RawMsg)
    returns (r: Result<SellerRound>)
    requires |gathered| == |children|
    ensures !AllGather(gathered) ==> r == Err("Unexpected message")
    ensures AllGather(gathered) && |children| == 0 ==> r == Err(Undefined("index"))
    ensures AllGather(gathered) && |children| == 1 ==> r == Err(Undefined("subtree_max"))
    ensures AllGather(gathered) && |children| >= 2 && !answer.TResponse? ==> r == Err("Unexpected message")
    ensures r.Ok? <==> AllGather(gathered) && |children| >= 2 && answer.TResponse?
    ensures r.Ok? ==>
              var values := Reports(gathered);
              && r.value.diffusion == Diffusion(me, item)
              && (exists k :: 0 <= k < |children| && r.value.scatterTo == children[k] && values[k] == Largest(values))
              && r.value.scatter == Scatter(SecondLargest(values))
              && r.value.ledger == answer.transactions
  {
    var diffusion := Diffusion(me, item);
    if !AllGather(gathered) {
      return Err("Unexpected message");
    }
    var ranking :- Rank(Reports(gathered));
    var maxNeighbor := children[ranking.maxIndex];
    var sell := Scatter(ranking.second);
    if !answer.TResponse? {
      return Err("Unexpected message");
    }
    r := Ok(SellerRound(diffusion, maxNeighbor, sell, answer.transactions));
  }

  /** A buyer's setup; the role tag is checked at the start of `run`. */
  datatype BuyerSetup = BuyerSetup(role: string, parent: NodeId, evaluation: Item -> int)

  /** How a buyer ends the scatter round. */
  datatype Decision =
    | Keep(txUp: RawMsg)
    | Resell(to: NodeId, scatterDown: RawMsg, txUp: RawMsg)

  /** A buyer's part of a run: its children, what it forwards to them, what it
      reports up, and its decision. */
  datatype BuyerRound = BuyerRound(children: seq<NodeId>, forwarded: RawMsg, gatherUp: RawMsg, decision: Decision)

  /** `DAMBuyerNode.run`. Its children are its neighbours without (the first
      occurrence of) its parent; `diffusion`, `scatterUp` come from the
      parent, `gathered[k]` from the `k`-th child and `txDown` from the child
      it resells to. */
  method BuyerRun(me: NodeId, neighbors: seq<NodeId>, setup: BuyerSetup, diffusion: RawMsg,
                  gathered: seq<RawMsg>, scatterUp: RawMsg, txDown: RawMsg)
    returns (r: Result<BuyerRound>)
    requires |gathered| == |Collection.RemoveElement(neighbors, setup.parent)|
    ensures setup.role != "DAM_BUYER" ==> r == Err("Invalid role")
    ensures setup.role == "DAM_BUYER" && (!diffusion.Diffusion? || !AllGather(gathered)) ==> r == Err("Unexpected message")
    ensures setup.role == "DAM_BUYER" && diffusion.Diffusion? && AllGather(gathered) ==>
              && (|gathered| == 0 ==> r == Err(Undefined("index")))
              && (|gathered| == 1 ==> r == Err(Undefined("subtree_max")))
              && (|gathered| >= 2 && !scatterUp.Scatter? ==> r == Err("Unexpected message"))
    ensures r.Ok? ==>
              && setup.role == "DAM_BUYER" && diffusion.Diffusion? && AllGather(gathered)
              && |gathered| >= 2 && scatterUp.Scatter?
    ensures r.Ok? ==>
              var values := Reports(gathered);
              var bid := setup.evaluation(diffusion.item);
              var resale := Algorithm.Max(SecondLargest(values), [bid]);
              var offered := scatterUp.externalMax;
              && r.value.children == Collection.RemoveElement(neighbors, setup.parent)
              && r.value.forwarded == diffusion
              && r.value.gatherUp == Gather(Largest([bid] + values))
              && (r.value.decision.Keep? <==> SecondLargest(values) <= bid)
              && (r.value.decision.Keep? ==> r.value.decision.txUp == TResponse([KeepLine(me, offered)]))
              && (r.value.decision.Resell? ==>
                    && (exists k :: 0 <= k < |values| && r.value.decision.to == r.value.children[k] && values[k] == Largest(values))
                    && r.value.decision.scatterDown == Scatter(resale)
                    && txDown.TResponse?
                    && r.value.decision.txUp == TResponse([ResellLine(me, resale, offered)] + txDown.transactions))
    ensures setup.role == "DAM_BUYER" && diffusion.Diffusion? && AllGather(gathered) && |gathered| >= 2 && scatterUp.Scatter? ==>
              (r.Ok? <==> SecondLargest(Reports(gathered)) <= setup.evaluation(diffusion.item) || txDown.TResponse?)
    // The answer up is a path ledger: a keeper's own path, or the path its
    // child answered for, extended by this buyer's resale.
    ensures r.Ok? && r.value.decision.Keep? ==>
              r.value.decision.txUp == TResponse(PathLedger(scatterUp.externalMax, [], me))
    ensures r.Ok? && r.value.decision.Resell? ==>
              var resale := Algorithm.Max(SecondLargest(Reports(gathered)), [setup.evaluation(diffusion.item)]);
              forall rest, w :: txDown.transactions == PathLedger(resale, rest, w) ==>
                r.value.decision.txUp == TResponse(PathLedger(scatterUp.externalMax, [(me, resale)] + rest, w))
  {
    if setup.role != "DAM_BUYER" {
      return Err("Invalid role");
    }
    var parent := setup.parent;
    var children := Collection.RemoveElement(neighbors, parent);
    if !diffusion.Diffusion? {
      return Err("Unexpected message");
    }
    var price := setup.evaluation(diffusion.item);
    if !AllGather(gathered) {
      return Err("Unexpected message");
    }
    var values := Reports(gathered);
    var ranking :- Rank(values);
    var maxNeighbor := children[ranking.maxIndex];
    var secondMaxPrice := Algorithm.Max(ranking.second, [price]);
    var maxPrice := Algorithm.Max(ranking.top, [secondMaxPrice]);
    BuyerPrices(values, price);
    var gatherUp := Gather(maxPrice);
    if !scatterUp.Scatter? {
      return Err("Unexpected message");
    }
    var offered := scatterUp.externalMax;
    if secondMaxPrice <= price {
      ResellExtendsPath(me, secondMaxPrice, offered, [], me);
      r := Ok(BuyerRound(children, diffusion, gatherUp, Keep(TResponse([KeepLine(me, offered)]))));
    } else {
      var scatterDown := Scatter(secondMaxPrice);
      if !txDown.TResponse? {
        return Err("Unexpected message");
      }
      var txUp := TResponse([ResellLine(me, secondMaxPrice, offered)] + txDown.transactions);
      forall rest, w | txDown.transactions == PathLedger(secondMaxPrice, rest, w)
        ensures txUp == TResponse(PathLedger(offered, [(me, secondMaxPrice)] + rest, w))
      {
        ResellExtendsPath(me, secondMaxPrice, offered, rest, w);
      }
      r := Ok(BuyerRound(children, diffusion, gatherUp, Resell(maxNeighbor, scatterDown, txUp)));
    }
  }

  /** A buyer's prices: `second_max_price` is never below the bid, so the
      keep test holds exactly when no other child outbids the bid; and
      `max_price` is the largest of the bid and all reports. */
  lemma BuyerPrices(values: seq<int>, bid: int)
    requires |values| >= 2
    ensures Algorithm.Max(SecondLargest(values), [bid]) >= bid
    ensures Algorithm.Max(SecondLargest(values), [bid]) <= bid <==> SecondLargest(values) <= bid
    ensures Algorithm.Max(Largest(values), [Algorithm.Max(SecondLargest(values), [bid])]) == Largest([bid] + values)
  {
    var all := [bid] + values;
    var m := Algorithm.Max(Largest(values), [Algorithm.Max(SecondLargest(values), [bid])]);
    assert forall x :: x in all ==> x == bid || x in values;
    assert m in all by {
      if m == Largest(values) {
        assert m in values;
      }
    }
  }

  /** The ledger that comes back up a scatter path: every node in `resellers`
      (with its resale price) resold the item to the next, and `winner`
      kept it; `offered` is the price the first of them was offered. */
  function PathLedger(offered: int, resellers: seq<(NodeId, int)>, winner: NodeId): (l: seq<TransactionUnit>)
    ensures |l| == |resellers| + 1
    decreases |resellers|
  {
    if resellers == [] then [KeepLine(winner, offered)]
    else
      var (b, resale) := resellers[0];
      [ResellLine(b, resale, offered)] + PathLedger(resale, resellers[1..], winner)
  }

  function SumTransfers(l: seq<TransactionUnit>): int {
    if l == [] then 0 else l[0].transfer + SumTransfers(l[1..])
  }

  /** On a scatter path exactly one line, the last, allocates the item. */
  lemma {:induction false} PathLedgerAllocatesOnce(offered: int, resellers: seq<(NodeId, int)>, winner: NodeId)
    ensures var l := PathLedger(offered, resellers, winner);
            && l[|l| - 1].allocation && l[|l| - 1].buyer == winner
            && forall k :: 0 <= k < |l| - 1 ==> !l[k].allocation
    decreases |resellers|
  {
    if resellers != [] {
      PathLedgerAllocatesOnce(resellers[0].1, resellers[1..], winner);
    }
  }

  /** The transfers on a scatter path telescope: together the buyers on it
      pay exactly the price the first of them was offered. */
  lemma {:induction false} PathLedgerSum(offered: int, resellers: seq<(NodeId, int)>, winner: NodeId)
    ensures SumTransfers(PathLedger(offered, resellers, winner)) == -offered
    decreases |resellers|
  {
    if resellers != [] {
      PathLedgerSum(resellers[0].1, resellers[1..], winner);
    }
  }

  /** A keeper's answer is the ledger of a path that ends with it, and a
      reseller's answer extends the path its child answered for. */
  lemma ResellExtendsPath(me: NodeId, resale: int, offered: int, rest: seq<(NodeId, int)>, winner: NodeId)
    ensures [KeepLine(me, offered)] == PathLedger(offered, [], me)
    ensures [ResellLine(me, resale, offered)] + PathLedger(resale, rest, winner) ==
              PathLedger(offered, [(me, resale)] + rest, winner)
  {
    assert ([(me, resale)] + rest)[1..] == rest;
  }

  /** The seller passes the path's ledger on as it is, so the transfers it
      returns sum to minus the second price it scattered, not to zero: the
      seller's own earning is not a line of it. */
  lemma SellerLedgerSum(secondPrice: int, resellers: seq<(NodeId, int)>, winner: NodeId, me: NodeId)
    ensures SumTransfers(PathLedger(secondPrice, resellers, winner)) == -secondPrice
    ensures SumTransfers([TransactionUnit(me, secondPrice, false)] + PathLedger(secondPrice, resellers, winner)) == 0
  {
    PathLedgerSum(secondPrice, resellers, winner);
    var l := [TransactionUnit(me, secondPrice, false)] + PathLedger(secondPrice, resellers, winner);
    assert l[1..] == PathLedger(secondPrice, resellers, winner);
  }

  /** The ledger the seller evidently means to return: the received ledger
      after a line of its own that balances the transfers, as the auction
      tests expect (the source returns the received ledger as it is). */
  function SellerLedger(me: NodeId, received: seq<TransactionUnit>): (l: seq<TransactionUnit>)
    ensures |l| == |received| + 1 && l[1..] == received
    ensures l[0].buyer == me && !l[0].allocation
    ensures SumTransfers(l) == 0
  {
    var l := [TransactionUnit(me, -SumTransfers(received), false)] + received;
    assert l[1..] == received;
    l
  }

  /** The two prices a buyer evidently means to derive from its bid and its
      children's reports, for any number of children: `max_price`, reported
      up, and `second_max_price`, its resale price, with absent reports left
      out of both maxima (the source reads them from past the end of the
      sorted responses and throws). With two or more children they are the
      prices `BuyerRun` computes. */
  function GatherPrices(values: seq<int>, bid: int): (p: (int, int))
    ensures p.0 == Largest([bid] + values)
    ensures bid <= p.1 <= p.0
    ensures p.1 == bid <==> |values| < 2 || SecondLargest(values) <= bid
    ensures |values| >= 2 ==> p.1 == Algorithm.Max(SecondLargest(values), [bid])
  {
    if |values| < 2 then
      assert bid in [bid] + values;
      (Largest([bid] + values), bid)
    else
      var second := Algorithm.Max(SecondLargest(values), [bid]);
      BuyerPrices(values, bid);
      (Algorithm.Max(Largest(values), [second]), second)
  }

  /** The second price of two reports, the larger first. */
  lemma SecondOfTwo(a: int, b: int)
    requires a > b
    ensures Largest([a, b]) == a && SecondLargest([a, b]) == b
  {
    assert [a, b][0] == a && [a, b][1] == b;
    assert Largest([a, b]) in [a, b];
    assert a in [a, b];
    var rest := Collection.RemoveElement([a, b], a);
    assert Collection.IndexOf([a, b], a) == 0;
    assert rest == [b];
    assert Largest(rest) in rest;
  }

  /** The first scenario of the repository's auction tests (bids 3 at node
      1, 7 and 5 at its childless children 3 and 4, 1 at node 2 and at its
      childless children 5 and 6), run with the corrected prices and seller
      ledger: the leaves report their bids and node 3 keeps; node 1 reports
      7 and resells at 5; node 2 reports 1; the seller offers the second
      report 1 to node 1, and returns exactly the ledger the test expects. */
  lemma FirstScenario()
    ensures GatherPrices([], 7) == (7, 7) && GatherPrices([], 5) == (5, 5) && GatherPrices([], 1) == (1, 1)
    ensures GatherPrices([7, 5], 3) == (7, 5) && 5 > 3
    ensures GatherPrices([1, 1], 1).0 == 1
    ensures Largest([7, 1]) == 7 && SecondLargest([7, 1]) == 1
    ensures PathLedger(1, [("1", 5)], "3") == [TransactionUnit("1", 4, false), TransactionUnit("3", -5, true)]
    ensures SellerLedger("0", PathLedger(1, [("1", 5)], "3")) ==
              [TransactionUnit("0", 1, false), TransactionUnit("1", 4, false), TransactionUnit("3", -5, true)]
  {
    ChildlessBuyerKeeps(7);
    ChildlessBuyerKeeps(5);
    ChildlessBuyerKeeps(1);
    SecondOfTwo(7, 5);
    assert GatherPrices([7, 5], 3).0 == 7 by {
      assert Largest([3] + [7, 5]) in [3, 7, 5] && 7 in [3] + [7, 5];
    }
    assert GatherPrices([1, 1], 1).0 == 1 by {
      assert Largest([1] + [1, 1]) in [1, 1, 1];
    }
    SecondOfTwo(7, 1);
    ScenarioLedger();
  }

  /** The ledger of the first scenario's scatter path, and the seller's line
      the corrected ledger puts before it. */
  lemma ScenarioLedger()
    ensures PathLedger(1, [("1", 5)], "3") == [TransactionUnit("1", 4, false), TransactionUnit("3", -5, true)]
    ensures SellerLedger("0", PathLedger(1, [("1", 5)], "3")) ==
              [TransactionUnit("0", 1, false), TransactionUnit("1", 4, false), TransactionUnit("3", -5, true)]
  {
    var l := PathLedger(1, [("1", 5)], "3");
    assert l == [TransactionUnit("1", 4, false), TransactionUnit("3", -5, true)] by {
      assert [("1", 5)][1..] == [];
    }
    assert SumTransfers(l) == -1 by {
      assert l[1..][1..] == [];
    }
  }

  /** With the corrected prices a buyer without children reports its bid
      and keeps the item whatever it is offered. */
  lemma ChildlessBuyerKeeps(bid: int)
    ensures GatherPrices([], bid) == (bid, bid)
  {
    assert [bid] + [] == [bid];
  }
}
