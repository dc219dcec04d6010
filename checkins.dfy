/** The check-in collector (7-eleven-swarm/get_data.py): page through the
    user's check-ins between two timestamps, 250 at a time, newest first,
    until a page comes back empty, then append everything collected as one
    JSON document to `data/checkins.json`. */
module CheckinsCollector {
  import opened Json
  import opened Seqs
  import opened Files

  const PAGE_SIZE: nat := 250
  const SORT_ORDER: string := "newestfirst"
  const CHECKINS_PATH: string := "data/checkins.json"

  /** The parameters of one `client.users.checkins(params=...)` call. */
  datatype CheckinsRequest = CheckinsRequest(
    afterTimestamp: int,
    beforeTimestamp: int,
    sort: string,
    limit: nat,
    offset: int)

  /** The request for page `k` of the window. */
  function PageRequest(startTs: int, endTs: int, k: int): CheckinsRequest
  {
    CheckinsRequest(startTs, endTs, SORT_ORDER, PAGE_SIZE, PAGE_SIZE * k)
  }

  /** A reply after which no further page is requested: an empty `items`
      list, or a failed call (the client raises and the script stops). */
  predicate Stops<Item>(reply: Result<seq<Item>>) {
    reply.Err? || |reply.value| == 0
  }

  /** The items of a page; `[]` for a failed call. */
  function PageItems<Item>(reply: Result<seq<Item>>): seq<Item>
  {
    if reply.Ok? then reply.value else []
  }

  /** The first `k` pages of the window, in request order. */
  function Pages<Item>(api: CheckinsRequest -> Result<seq<Item>>, startTs: int, endTs: int, k: nat): (ps: seq<seq<Item>>)
    ensures |ps| == k
    ensures forall j :: 0 <= j < k ==> ps[j] == PageItems(api(PageRequest(startTs, endTs, j)))
  {
    seq(k, j => PageItems(api(PageRequest(startTs, endTs, j))))
  }

  /** The accumulator after `k` non-empty pages: their items, page after page. */
  function Collected<Item>(api: CheckinsRequest -> Result<seq<Item>>, startTs: int, endTs: int, k: nat): seq<Item>
  {
    Flatten(Pages(api, startTs, endTs, k))
  }

  /** One more page appends that page's items, in the order the API gave them. */
  lemma CollectedSnoc<Item>(api: CheckinsRequest -> Result<seq<Item>>, startTs: int, endTs: int, k: nat)
    ensures Collected(api, startTs, endTs, k + 1)
         == Collected(api, startTs, endTs, k) + PageItems(api(PageRequest(startTs, endTs, k)))
  {
    assert Pages(api, startTs, endTs, k + 1)
        == Pages(api, startTs, endTs, k) + [PageItems(api(PageRequest(startTs, endTs, k)))];
    FlattenSnoc(Pages(api, startTs, endTs, k), PageItems(api(PageRequest(startTs, endTs, k))));
  }

  /** Item `i` of page `j` is found in the accumulator right after all items of
      the pages before it, and the accumulator is exactly as long as the pages
      together. */
  lemma CollectedOrder<Item>(api: CheckinsRequest -> Result<seq<Item>>, startTs: int, endTs: int, k: nat, j: nat, i: nat)
    requires j < k && i < |PageItems(api(PageRequest(startTs, endTs, j)))|
    ensures |Collected(api, startTs, endTs, k)| == TotalLength(Pages(api, startTs, endTs, k))
    ensures var before := TotalLength(Pages(api, startTs, endTs, j));
            before + i < |Collected(api, startTs, endTs, k)| &&
            Collected(api, startTs, endTs, k)[before + i] == api(PageRequest(startTs, endTs, j)).value[i]
  {
    var ps := Pages(api, startTs, endTs, k);
    FlattenLength(ps);
    assert ps[..j] == Pages(api, startTs, endTs, j);
    FlattenAt(ps, j, i);
  }

  /** The request loop (get_data.py lines 40-56). Every request carries the
      same window, sort order and limit, and offset `250 * j`; the loop asks
      for pages until the first one that is empty or fails, and asks for none
      after it. On success the result is all items of the non-empty pages in
      request order, and `offset` is 250 times their number. */
  method FetchCheckins<Item>(api: CheckinsRequest -> Result<seq<Item>>, startTs: int, endTs: int)
    returns (result: Result<seq<Item>>, offset: int, requests: seq<CheckinsRequest>)
    requires exists k: nat :: Stops(api(PageRequest(startTs, endTs, k)))
    ensures |requests| >= 1
    ensures forall j :: 0 <= j < |requests| ==>
              && requests[j].afterTimestamp == startTs
              && requests[j].beforeTimestamp == endTs
              && requests[j].sort == SORT_ORDER
              && requests[j].limit == PAGE_SIZE
              && requests[j].offset == PAGE_SIZE * j
    ensures forall j :: 0 <= j < |requests| - 1 ==> !Stops(api(requests[j]))
    ensures Stops(api(requests[|requests| - 1]))
    ensures offset == PAGE_SIZE * (|requests| - 1)
    ensures result.Ok? <==> api(requests[|requests| - 1]).Ok?
    ensures result.Ok? ==> result.value == Collected(api, startTs, endTs, |requests| - 1)
  {
    ghost var bound: nat :| Stops(api(PageRequest(startTs, endTs, bound)));
    offset := 0;
    var data: seq<Item> := [];
    requests := [];
    while true
      invariant |requests| <= bound
      invariant offset == PAGE_SIZE * |requests|
      invariant forall j :: 0 <= j < |requests| ==> requests[j] == PageRequest(startTs, endTs, j)
      invariant forall j :: 0 <= j < |requests| ==> !Stops(api(requests[j]))
      invariant data == Collected(api, startTs, endTs, |requests|)
      decreases bound - |requests|
    {
      var request := CheckinsRequest(startTs, endTs, SORT_ORDER, PAGE_SIZE, offset);
      var c := api(request);
      if c.Err? {
        requests := requests + [request];
        return Err(c.error), offset, requests;
      }
      var items := c.value;
      if |items| == 0 {
        requests := requests + [request];
        break;
      }
      ghost var before := data;
      for i := 0 to |items|
        invariant data == before + items[..i]
      {
        data := data + [items[i]];
      }
      assert items[..|items|] == items;
      CollectedSnoc(api, startTs, endTs, |requests|);
      requests := requests + [request];
      offset := offset + PAGE_SIZE;
    }
    result := Ok(data);
  }

  /** The whole script after authentication (get_data.py lines 40-59): the
      file is written once, after the loop, in append mode, with the list
      collected; a run that fails before the loop ends writes nothing. */
  method CollectCheckins<Item>(api: CheckinsRequest -> Result<seq<Item>>, startTs: int, endTs: int, store: FileStore<seq<Item>>)
    returns (result: Result<seq<Item>>, requests: seq<CheckinsRequest>)
    requires exists k: nat :: Stops(api(PageRequest(startTs, endTs, k)))
    modifies store
    ensures |requests| >= 1 && Stops(api(requests[|requests| - 1]))
    ensures forall j :: 0 <= j < |requests| ==> requests[j] == PageRequest(startTs, endTs, j)
    ensures forall j :: 0 <= j < |requests| - 1 ==> !Stops(api(requests[j]))
    ensures result.Ok? <==> api(requests[|requests| - 1]).Ok?
    ensures result.Ok? ==> result.value == Collected(api, startTs, endTs, |requests| - 1)
    ensures result.Ok? ==> store.files == Appended(old(store.files), CHECKINS_PATH, [result.value])
    ensures result.Err? ==> store.files == old(store.files)
  {
    var offset;
    result, offset, requests := FetchCheckins(api, startTs, endTs);
    if result.Ok? {
      store.Append(CHECKINS_PATH, [result.value]);
    }
  }

  /** A window whose first page is empty: exactly one request is made, and an
      empty list is still appended to the file as its own document. */
  method EmptyWindowDumpsEmptyList<Item>(api: CheckinsRequest -> Result<seq<Item>>, startTs: int, endTs: int, store: FileStore<seq<Item>>)
    returns (requests: seq<CheckinsRequest>)
    requires api(PageRequest(startTs, endTs, 0)) == Ok([])
    modifies store
    ensures requests == [PageRequest(startTs, endTs, 0)]
    ensures store.files == Appended(old(store.files), CHECKINS_PATH, [[]])
  {
    assert Stops(api(PageRequest(startTs, endTs, 0)));
    var result;
    result, requests := CollectCheckins(api, startTs, endTs, store);
    assert |requests| == 1;
    assert Pages(api, startTs, endTs, 0) == [];
  }
}
