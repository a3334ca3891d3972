/** The search endpoint's cache of responses (web/src/routes/api/youtube-search/+server.ts:21-47, 89-104,
    148-153): a JavaScript Map, bounded, with a time to live. Times are in milliseconds. */
module SearchCache {
  import opened Collections
  import opened Wrappers

  const CACHE_TTL_MS: int := 24 * 60 * 60 * 1000
  const CACHE_MAX_ENTRIES: nat := 1000

  datatype Response = Response(results: seq<string>, next: Option<string>, previous: Option<string>)
  datatype Entry = Entry(response: Response, expiresAt: int)
  datatype Row = Row(key: string, entry: Entry)

  // ---- keys ----

  function TokenText(token: Option<string>): string {
    if token.Some? then token.value else ""
  }

  /** `normal` is what the endpoint makes of the query it is given: trimmed, and then put in lower case. */
  function CacheKey(normal: string -> string, query: string, token: Option<string>): string {
    normal(query) + "::" + TokenText(token)
  }

  /** A query already in the form the endpoint gives it. */
  predicate Normal(normal: string -> string, q: string) {
    normal(q) == q
  }

  /** The key of a request with query `a`, in normal form, and token `x` can be read as that of a longer query: the
      separator can be moved on by one over a colon that starts the token, or to two colons inside it. */
  predicate Confusable(normal: string -> string, a: string, x: string) {
    || (x != "" && x[0] == ':' && Normal(normal, a + ":"))
    || exists i | 0 <= i < |x| - 1 :: x[i] == ':' && x[i + 1] == ':' && Normal(normal, a + "::" + x[..i])
  }

  ghost predicate SharesKey(normal: string -> string, q: string, t: Option<string>, q': string, t': Option<string>) {
    CacheKey(normal, q, t) == CacheKey(normal, q', t')
  }

  ghost predicate SameAsked(normal: string -> string, q: string, t: Option<string>, q': string, t': Option<string>) {
    normal(q) == normal(q') && (t == t' || (NoToken(t) && NoToken(t')))
  }

  /** An empty token is as good as none. */
  ghost predicate NoToken(t: Option<string>) {
    t == None || t == Some("")
  }

  /** Some request with a longer query has the same key. */
  ghost predicate SharedByLonger(normal: string -> string, q: string, t: Option<string>) {
    exists q', t' :: |normal(q)| < |normal(q')| && SharesKey(normal, q, t, q', t')
  }

  lemma SameLength(a: string, x: string, b: string, y: string)
    requires a + "::" + x == b + "::" + y && |a| == |b|
    ensures a == b && x == y
  {
    assert a == (a + "::" + x)[..|a|] == (b + "::" + y)[..|b|] == b;
    assert x == (a + "::" + x)[|a| + 2..] == (b + "::" + y)[|b| + 2..] == y;
  }

  /** The longer query of a second reading ends in the separator, or in its first colon, of the first. */
  lemma LongerReading(a: string, x: string, b: string, y: string)
    requires a + "::" + x == b + "::" + y && |a| < |b|
    ensures var k := |b| - |a|;
            if k == 1 then x != "" && x[0] == ':' && b == a + ":"
            else k - 2 < |x| - 1 && x[k - 2] == ':' && x[k - 1] == ':' && b == a + "::" + x[..k - 2]
  {
    var s, k := a + "::" + x, |b| - |a|;
    assert s[|b| + 1] == (b + "::" + y)[|b| + 1] == ':';
    assert s[|b| + 1] == x[k - 1];
    assert b == (b + "::" + y)[..|b|] == s[..|b|];
    if k == 1 {
      assert s[..|b|] == a + ":";
    } else {
      assert s[|b|] == (b + "::" + y)[|b|] == ':';
      assert s[|b|] == x[k - 2];
      assert s[..|b|] == a + "::" + x[..k - 2];
    }
  }

  lemma SharedIsConfusable(normal: string -> string, q: string, t: Option<string>, q': string, t': Option<string>)
    requires forall s :: normal(normal(s)) == normal(s)
    requires SharesKey(normal, q, t, q', t') && |normal(q)| < |normal(q')|
    ensures Confusable(normal, normal(q), TokenText(t))
  {
    var a, b, x := normal(q), normal(q'), TokenText(t);
    LongerReading(a, x, b, TokenText(t'));
    assert Normal(normal, b);
    var k := |b| - |a|;
    if k > 1 {
      assert x[k - 2] == ':' && x[k - 1] == ':' && Normal(normal, a + "::" + x[..k - 2]);
    }
  }

  lemma ConfusableIsShared(normal: string -> string, q: string, t: Option<string>)
    requires Confusable(normal, normal(q), TokenText(t))
    ensures SharedByLonger(normal, q, t)
  {
    var a, x := normal(q), TokenText(t);
    if x != "" && x[0] == ':' && Normal(normal, a + ":") {
      assert a + "::" + x == (a + ":") + "::" + x[1..];
      assert SharesKey(normal, q, t, a + ":", Some(x[1..]));
    } else {
      var i :| 0 <= i < |x| - 1 && x[i] == ':' && x[i + 1] == ':' && Normal(normal, a + "::" + x[..i]);
      assert x == x[..i] + "::" + x[i + 2..];
      assert a + "::" + x == (a + "::" + x[..i]) + "::" + x[i + 2..];
      assert SharesKey(normal, q, t, a + "::" + x[..i], Some(x[i + 2..]));
    }
  }

  /** A request shares its key with one of a longer query exactly when its own key is confusable. */
  lemma SharedByLongerIff(normal: string -> string, q: string, t: Option<string>)
    requires forall s :: normal(normal(s)) == normal(s)
    ensures SharedByLonger(normal, q, t) <==> Confusable(normal, normal(q), TokenText(t))
  {
    if SharedByLonger(normal, q, t) {
      var q', t' :| |normal(q)| < |normal(q')| && SharesKey(normal, q, t, q', t');
      SharedIsConfusable(normal, q, t, q', t');
    }
    if Confusable(normal, normal(q), TokenText(t)) {
      ConfusableIsShared(normal, q, t);
    }
  }

  /** Two requests share a key exactly when they ask the same thing: the query but for case, and the page, where
      no token is the same as an empty one; unless the one with the shorter query is confusable. */
  lemma KeysAgreeIff(normal: string -> string, q: string, t: Option<string>, q': string, t': Option<string>)
    requires forall s :: normal(normal(s)) == normal(s)
    requires |normal(q)| < |normal(q')| ==> !Confusable(normal, normal(q), TokenText(t))
    requires |normal(q')| < |normal(q)| ==> !Confusable(normal, normal(q'), TokenText(t'))
    ensures SharesKey(normal, q, t, q', t') <==> SameAsked(normal, q, t, q', t')
  {
    if SharesKey(normal, q, t, q', t') {
      if |normal(q)| < |normal(q')| {
        SharedIsConfusable(normal, q, t, q', t');
      } else if |normal(q')| < |normal(q)| {
        SharedIsConfusable(normal, q', t', q, t);
      } else {
        SameLength(normal(q), TokenText(t), normal(q'), TokenText(t'));
      }
    }
  }

  /** Different requests that share a key: two colons in a row in a token, or one at its front. */
  lemma ColonsCollide(normal: string -> string)
    requires normal("a") == "a" && normal("a:") == "a:" && normal("a::b") == "a::b"
    ensures SharesKey(normal, "a::b", None, "a", Some("b::")) && !SameAsked(normal, "a::b", None, "a", Some("b::"))
    ensures SharesKey(normal, "a:", Some("y"), "a", Some(":y")) && !SameAsked(normal, "a:", Some("y"), "a", Some(":y"))
  {
    assert "a::b" + "::" + "" == "a" + "::" + "b::";
    assert "a:" + "::" + "y" == "a" + "::" + ":y";
  }

  // ---- a Map as its rows, in the order of first insertion ----

  predicate KeysDistinct(rows: seq<Row>) {
    forall i, j | 0 <= i < j < |rows| :: rows[i].key != rows[j].key
  }

  function IndexOf(rows: seq<Row>, key: string): (i: nat)
    ensures i <= |rows|
    ensures forall j | 0 <= j < i :: rows[j].key != key
    ensures i < |rows| ==> rows[i].key == key
  {
    if rows == [] || rows[0].key == key then 0 else 1 + IndexOf(rows[1..], key)
  }

  predicate Has(rows: seq<Row>, key: string) {
    IndexOf(rows, key) < |rows|
  }

  function Deleted(rows: seq<Row>, key: string): seq<Row> {
    var i := IndexOf(rows, key);
    if i < |rows| then RemoveAt(rows, i) else rows
  }

  /** `Map.set`: a key already there keeps its place. */
  function Assigned(rows: seq<Row>, row: Row): seq<Row> {
    var i := IndexOf(rows, row.key);
    if i < |rows| then rows[i := row] else rows + [row]
  }

  /** A full map loses its oldest row. */
  function Room(rows: seq<Row>): seq<Row> {
    if |rows| >= CACHE_MAX_ENTRIES then rows[1..] else rows
  }

  function Stored(rows: seq<Row>, row: Row): seq<Row> {
    Assigned(Room(rows), row)
  }

  /** The response the cache answers with, if it does. */
  function Answer(rows: seq<Row>, key: string, now: int): Option<Response> {
    var i := IndexOf(rows, key);
    if i < |rows| && rows[i].entry.expiresAt > now then Some(rows[i].entry.response) else None
  }

  /** What is left after a lookup: an expired entry is dropped. */
  function AfterLookup(rows: seq<Row>, key: string, now: int): seq<Row> {
    if Answer(rows, key, now).Some? then rows else Deleted(rows, key)
  }

  // ---- the code ----

  ghost predicate Filed(keys: seq<string>, entries: map<string, Entry>) {
    && (forall i, j | 0 <= i < j < |keys| :: keys[i] != keys[j])
    && (forall i | 0 <= i < |keys| :: keys[i] in entries)
    && (forall key | key in entries :: key in keys)
  }

  function Rows(keys: seq<string>, entries: map<string, Entry>): (rows: seq<Row>)
    requires forall i | 0 <= i < |keys| :: keys[i] in entries
  {
    seq(|keys|, i requires 0 <= i < |keys| => Row(keys[i], entries[keys[i]]))
  }

  lemma RowAt(keys: seq<string>, entries: map<string, Entry>, i: nat)
    requires Filed(keys, entries) && i < |keys|
    ensures IndexOf(Rows(keys, entries), keys[i]) == i
  {
    var rows := Rows(keys, entries);
    var j := IndexOf(rows, keys[i]);
    assert rows[i].key == keys[i];
    assert rows[j].key == keys[j];
  }

  lemma NoRow(keys: seq<string>, entries: map<string, Entry>, key: string)
    requires Filed(keys, entries) && key !in entries
    ensures !Has(Rows(keys, entries), key)
  {
    assert forall j | 0 <= j < |keys| :: Rows(keys, entries)[j].key == keys[j];
  }

  lemma UnfiledIsFiled(keys: seq<string>, entries: map<string, Entry>, i: nat)
    requires Filed(keys, entries) && i < |keys|
    ensures Filed(RemoveAt(keys, i), entries - {keys[i]})
  {
    var rest := RemoveAt(keys, i);
    assert forall j | 0 <= j < |rest| :: rest[j] == keys[if j < i then j else j + 1];
    forall key | key in entries && key != keys[i] ensures key in rest {
      var j :| 0 <= j < |keys| && keys[j] == key;
      assert rest[if j < i then j else j - 1] == key;
    }
  }

  lemma RowsWithout(keys: seq<string>, entries: map<string, Entry>, i: nat)
    requires Filed(keys, entries) && i < |keys|
    requires Filed(RemoveAt(keys, i), entries - {keys[i]})
    ensures Rows(RemoveAt(keys, i), entries - {keys[i]}) == RemoveAt(Rows(keys, entries), i)
  {
    var rest, rows := RemoveAt(keys, i), Rows(keys, entries);
    forall j | 0 <= j < |rest| ensures Rows(rest, entries - {keys[i]})[j] == RemoveAt(rows, i)[j] {
      assert rest[j] == keys[if j < i then j else j + 1];
    }
  }

  lemma Unfiled(keys: seq<string>, entries: map<string, Entry>, i: nat)
    requires Filed(keys, entries) && i < |keys|
    ensures Filed(RemoveAt(keys, i), entries - {keys[i]})
    ensures Rows(RemoveAt(keys, i), entries - {keys[i]}) == Deleted(Rows(keys, entries), keys[i])
  {
    UnfiledIsFiled(keys, entries, i);
    RowAt(keys, entries, i);
    RowsWithout(keys, entries, i);
  }

  lemma FiledIn(keys: seq<string>, entries: map<string, Entry>, i: nat, entry: Entry)
    requires Filed(keys, entries) && i < |keys|
    ensures Filed(keys, entries[keys[i] := entry])
    ensures Rows(keys, entries[keys[i] := entry]) == Assigned(Rows(keys, entries), Row(keys[i], entry))
  {
    RowAt(keys, entries, i);
  }

  lemma FiledLast(keys: seq<string>, entries: map<string, Entry>, key: string, entry: Entry)
    requires Filed(keys, entries) && key !in entries
    ensures Filed(keys + [key], entries[key := entry])
    ensures Rows(keys + [key], entries[key := entry]) == Assigned(Rows(keys, entries), Row(key, entry))
  {
    NoRow(keys, entries, key);
  }

  class Cache {
    var keys: seq<string>
    var entries: map<string, Entry>

    ghost predicate Valid()
      reads this
    {
      Filed(keys, entries)
    }

    ghost function View(): seq<Row>
      requires Valid()
      reads this
    {
      Rows(keys, entries)
    }

    constructor ()
      ensures Valid() && View() == []
    {
      keys, entries := [], map[];
    }

    method Delete(key: string)
      requires Valid()
      modifies this
      ensures Valid() && View() == Deleted(old(View()), key)
    {
      if key in entries {
        var i := 0;
        while keys[i] != key
          invariant i < |keys| && key !in keys[..i]
          decreases |keys| - i
        {
          assert forall j | 0 <= j <= i :: keys[j] != key;
          i := i + 1;
        }
        Unfiled(keys, entries, i);
        keys := keys[..i] + keys[i + 1..];
        entries := entries - {key};
      } else {
        NoRow(keys, entries, key);
      }
    }

    method Set(key: string, entry: Entry)
      requires Valid()
      modifies this
      ensures Valid() && View() == Assigned(old(View()), Row(key, entry))
    {
      if key !in entries {
        FiledLast(keys, entries, key, entry);
        keys := keys + [key];
      } else {
        ghost var i :| 0 <= i < |keys| && keys[i] == key;
        FiledIn(keys, entries, i, entry);
      }
      entries := entries[key := entry];
    }

    method SetCache(key: string, entry: Entry)
      requires Valid()
      modifies this
      ensures Valid() && View() == Stored(old(View()), Row(key, entry))
    {
      if |keys| >= CACHE_MAX_ENTRIES {
        RowAt(keys, entries, 0);
        assert Deleted(View(), keys[0]) == View()[1..];
        Delete(keys[0]);
      }
      Set(key, entry);
    }

    /** The part of a request that consults the cache. */
    method Lookup(key: string, now: int) returns (cached: Option<Response>)
      requires Valid()
      modifies this
      ensures Valid() && View() == AfterLookup(old(View()), key, now)
      ensures cached == Answer(old(View()), key, now)
    {
      if key in entries {
        ghost var i :| 0 <= i < |keys| && keys[i] == key;
        RowAt(keys, entries, i);
        var entry := entries[key];
        if entry.expiresAt > now {
          return Some(entry.response);
        }
        Delete(key);
      } else {
        NoRow(keys, entries, key);
      }
      cached := None;
    }
  }
}
