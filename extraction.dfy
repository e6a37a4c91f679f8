/**
 * What the three extractor handlers share: the abstract outcome of an HTTP
 * fetch, the handler's response and the calls it makes, the raw-data file
 * name, and the two ways an extractor turns a list of API items into
 * records: keeping the records made before the first item that raises, or
 * all records or none.
 */
module Extraction {
  import opened Options
  import opened Text
  import opened Calendar
  import opened Json

  /**
   * requests.get, raise_for_status and response.json() together: the parsed
   * body, or the text of the exception one of them raised.
   */
  datatype FetchOutcome = Fetched(body: Json) | FetchFailed(message: string)

  /**
   * What a response's "error" field reports: the text of an exception, an
   * API item of the wrong shape (whose exception text is not modelled), or
   * a fixed message the handler returns without raising anything.
   */
  datatype Cause = Raised(message: string) | MalformedItem | Refused(message: string)

  /** The JSON body of a handler's response. */
  datatype Body =
    | Plain(text: string)                         // json.dumps of a plain string
    | Error(cause: Cause)                         // {'error': str(e)}
    | Processed(message: string, filename: string) // {'message': ..., 'filename': ...}

  datatype Response = Response(statusCode: int, body: Body)

  /** The external calls a handler makes, in order. */
  datatype Call =
    | TokenPost
    | ListingGet(community: string)
    | HeadlinesGet(category: string)
    | MarketsGet
    | PutObject(key: string)

  /** The object a successful put_object leaves in the bucket. */
  datatype StoredObject<R> = StoredObject(key: string, records: seq<R>)

  /** One handler run: its response, the calls it made, and what it stored. */
  datatype Invocation<R> = Invocation(response: Response, calls: seq<Call>, stored: Option<StoredObject<R>>)

  /** `not value` for an environment variable: unset or empty. */
  predicate Missing(value: Option<string>) {
    value.None? || value.value == ""
  }

  /** f"{prefix}{timestamp}.json", the timestamp being strftime('%Y%m%d_%H%M%S') of the clock. */
  function RawKey(prefix: string, clock: DateTime): string
    requires ValidDateTime(clock)
  {
    prefix + FileTimestamp(clock) + ".json"
  }

  /** Runs at different seconds write to different objects. */
  lemma RawKeyInjective(prefix: string, t1: DateTime, t2: DateTime)
    requires ValidDateTime(t1) && ValidDateTime(t2)
    requires RawKey(prefix, t1) == RawKey(prefix, t2)
    ensures t1 == t2
  {
    var k1, k2 := RawKey(prefix, t1), RawKey(prefix, t2);
    assert FileTimestamp(t1) == k1[|prefix|..|k1| - 5];
    assert FileTimestamp(t2) == k2[|prefix|..|k2| - 5];
    FileTimestampInjective(t1, t2);
  }

  /** f'Successfully processed {n} {noun}'. */
  function ProcessedMessage(n: nat, noun: string): string {
    "Successfully processed " + Decimal(n) + " " + noun
  }

  /** The success message states the record count exactly. */
  lemma ProcessedMessageCount(m: nat, n: nat, noun: string)
    requires ProcessedMessage(m, noun) == ProcessedMessage(n, noun)
    ensures m == n
  {
    var pre, post := "Successfully processed ", " " + noun;
    var s1, s2 := ProcessedMessage(m, noun), ProcessedMessage(n, noun);
    assert s1 == pre + Decimal(m) + post;
    assert s2 == pre + Decimal(n) + post;
    assert Decimal(m) == s1[|pre|..|s1| - |post|];
    assert Decimal(n) == s2[|pre|..|s2| - |post|];
    DecimalInjective(m, n);
  }

  /**
   * What a handler run looks like once its records are extracted: the
   * calls `before`, then the put of `key`; 200 with the count and the key
   * and the records stored, or 500 with the put's exception and nothing
   * stored.
   */
  ghost predicate Uploaded<R>(inv: Invocation<R>, before: seq<Call>, key: string, noun: string, records: seq<R>,
                        putError: Option<string>) {
    && inv.calls == before + [PutObject(key)]
    && (putError.None? ==>
          inv.response == Response(200, Processed(ProcessedMessage(|records|, noun), key))
          && inv.stored == Some(StoredObject(key, records)))
    && (putError.Some? ==> inv.response == Response(500, Error(Raised(putError.value))) && inv.stored.None?)
  }

  // ----- Looping over a fixed list of categories -----

  /**
   * A loop over `names` whose body appends `g(name)` to one list: the
   * per-name results concatenated in order.
   */
  function Concat<T>(g: string -> seq<T>, names: seq<string>): seq<T> {
    if names == [] then [] else g(names[0]) + Concat(g, names[1..])
  }

  /** One more name appends exactly its result. */
  lemma {:induction false} ConcatAppend<T>(g: string -> seq<T>, names: seq<string>, n: string)
    ensures Concat(g, names + [n]) == Concat(g, names) + g(n)
  {
    if names == [] {
      assert [n][1..] == [];
    } else {
      var t := names + [n];
      assert t[0] == names[0] && t[1..] == names[1..] + [n];
      ConcatAppend(g, names[1..], n);
    }
  }

  /** The loop step: extending the processed prefix by one name appends its result. */
  lemma ConcatTake<T>(g: string -> seq<T>, names: seq<string>, i: int)
    requires 0 <= i < |names|
    ensures Concat(g, names[..i + 1]) == Concat(g, names[..i]) + g(names[i])
  {
    assert names[..i + 1] == names[..i] + [names[i]];
    ConcatAppend(g, names[..i], names[i]);
  }

  /** Concat over three names. */
  lemma ConcatThree<T>(g: string -> seq<T>, names: seq<string>)
    requires |names| == 3
    ensures Concat(g, names) == g(names[0]) + g(names[1]) + g(names[2])
  {
    var n1, n2 := names[1..], names[2..];
    assert n1[0] == names[1] && n1[1..] == n2;
    assert n2[0] == names[2] && n2[1..] == [];
    assert Concat(g, n2) == g(names[2]) + Concat(g, []);
  }

  /** Concat over four names. */
  lemma ConcatFour<T>(g: string -> seq<T>, names: seq<string>)
    requires |names| == 4
    ensures Concat(g, names) == g(names[0]) + g(names[1]) + g(names[2]) + g(names[3])
  {
    ConcatThree(g, names[1..]);
    assert names[1..][0] == names[1] && names[1..][1] == names[2] && names[1..][2] == names[3];
  }

  /** Every element of the concatenation comes from the result of one of the names. */
  lemma {:induction false} ConcatOrigin<T>(g: string -> seq<T>, names: seq<string>, x: T)
    requires x in Concat(g, names)
    ensures exists i :: 0 <= i < |names| && x in g(names[i])
  {
    if x in g(names[0]) {
      assert x in g(names[0]);
    } else {
      ConcatOrigin(g, names[1..], x);
      var i :| 0 <= i < |names[1..]| && x in g(names[1..][i]);
      assert names[1..][i] == names[i + 1];
    }
  }

  // ----- Mapping API items to records -----

  /**
   * An append loop inside try/except: the records of the items before the
   * first one whose mapping raises (`f` gives None), which the exception
   * leaves in the list.
   */
  function MappedPrefix<A, B>(f: A -> Option<B>, items: seq<A>): seq<B> {
    if items == [] then []
    else match f(items[0])
      case None => []
      case Some(b) => [b] + MappedPrefix(f, items[1..])
  }

  /** The kept records are the mapped items of a prefix that ends just before the first failing item. */
  lemma {:induction false} MappedPrefixSpec<A, B>(f: A -> Option<B>, items: seq<A>)
    ensures |MappedPrefix(f, items)| <= |items|
    ensures forall k :: 0 <= k < |MappedPrefix(f, items)| ==> f(items[k]) == Some(MappedPrefix(f, items)[k])
    ensures |MappedPrefix(f, items)| < |items| ==> f(items[|MappedPrefix(f, items)|]).None?
  {
    if items != [] && f(items[0]).Some? {
      MappedPrefixSpec(f, items[1..]);
      var r := MappedPrefix(f, items);
      assert r == [f(items[0]).value] + MappedPrefix(f, items[1..]);
      forall k | 0 <= k < |r| ensures f(items[k]) == Some(r[k]) {
        if k > 0 {
          assert items[k] == items[1..][k - 1];
        }
      }
      if |r| < |items| {
        assert items[|r|] == items[1..][|r| - 1];
      }
    }
  }

  /** The characterisation determines the kept records. */
  lemma {:induction false} MappedPrefixUnique<A, B>(f: A -> Option<B>, items: seq<A>, kept: seq<B>)
    requires |kept| <= |items|
    requires forall k :: 0 <= k < |kept| ==> f(items[k]) == Some(kept[k])
    requires |kept| < |items| ==> f(items[|kept|]).None?
    ensures MappedPrefix(f, items) == kept
  {
    if items != [] && |kept| > 0 {
      assert f(items[0]) == Some(kept[0]);
      forall k | 0 <= k < |kept[1..]| ensures f(items[1..][k]) == Some(kept[1..][k]) {
        assert items[1..][k] == items[k + 1];
      }
      if |kept[1..]| < |items[1..]| {
        assert items[1..][|kept[1..]|] == items[|kept|];
      }
      MappedPrefixUnique(f, items[1..], kept[1..]);
      assert kept == [kept[0]] + kept[1..];
    }
  }

  /** A loop whose exception escapes: every item's record, or nothing at all. */
  function MapAll<A, B>(f: A -> Option<B>, items: seq<A>): Option<seq<B>> {
    var kept := MappedPrefix(f, items);
    if |kept| == |items| then Some(kept) else None
  }

  /** MapAll succeeds exactly when every item maps, and then keeps one record per item, in order. */
  lemma MapAllSpec<A, B>(f: A -> Option<B>, items: seq<A>)
    ensures MapAll(f, items).Some? <==> forall k :: 0 <= k < |items| ==> f(items[k]).Some?
    ensures MapAll(f, items).Some? ==>
      |MapAll(f, items).value| == |items|
      && forall k :: 0 <= k < |items| ==> f(items[k]) == Some(MapAll(f, items).value[k])
  {
    MappedPrefixSpec(f, items);
  }
}
