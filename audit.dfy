/**
 * The admin transaction audit (transaction_audit.js): the global history
 * and every user's own history are merged into one list, filtered by type
 * and a search text, sorted newest first and shown once per
 * `txnId_type_amount` key.
 */
module Audit {
  import opened Common
  import opened Store

  /** A history entry as the audit shows it; per-user entries carry `sourceUser`. */
  datatype Row = Row(entry: Entry, source: Option<string>)

  function HistoryIn(h: map<string, seq<Entry>>, key: string): seq<Entry>
  {
    if key in h then h[key] else []
  }

  /** `userHistory.map(tx => ({...tx, sourceUser}))`, or the untagged global entries. */
  function Tagged(es: seq<Entry>, source: Option<string>): (r: seq<Row>)
    ensures |r| == |es|
    ensures forall k :: 0 <= k < |es| ==> r[k] == Row(es[k], source)
  {
    if es == [] then [] else [Row(es[0], source)] + Tagged(es[1..], source)
  }

  /** The per-user part of `loadAllHistory`: each user's history in user order, tagged with the username. */
  function UserRows(users: seq<User>, h: map<string, seq<Entry>>): seq<Row>
  {
    if users == [] then []
    else var u := users[|users| - 1];
      UserRows(users[..|users| - 1], h) + Tagged(HistoryIn(h, GlobalHistoryKey + "_" + u.username), Some(u.username))
  }

  /** `loadAllHistory`: the global history first, then every user's. */
  function AllHistory(users: seq<User>, h: map<string, seq<Entry>>): seq<Row>
  {
    Tagged(HistoryIn(h, GlobalHistoryKey), None) + UserRows(users, h)
  }

  /** Every per-user row is tagged with the name of a stored user whose history holds the entry. */
  lemma {:induction false} UserRowsTagged(users: seq<User>, h: map<string, seq<Entry>>)
    ensures forall row :: row in UserRows(users, h) ==>
      row.source.Some? &&
      exists u :: u in users && row.source.value == u.username &&
                  row.entry in HistoryIn(h, GlobalHistoryKey + "_" + u.username)
  {
    if users != [] {
      var init := users[..|users| - 1];
      var u := users[|users| - 1];
      UserRowsTagged(init, h);
      var t := Tagged(HistoryIn(h, GlobalHistoryKey + "_" + u.username), Some(u.username));
      forall row | row in UserRows(users, h)
        ensures row.source.Some? &&
                exists v :: v in users && row.source.value == v.username &&
                            row.entry in HistoryIn(h, GlobalHistoryKey + "_" + v.username)
      {
        if row in UserRows(init, h) {
          var v :| v in init && row.source.value == v.username &&
            row.entry in HistoryIn(h, GlobalHistoryKey + "_" + v.username);
          assert v in users;
        } else {
          assert row in t;
          var k :| 0 <= k < |t| && t[k] == row;
          assert u in users;
        }
      }
    }
  }

  /** The merged list starts with the global history, untagged, and is as long as all histories together. */
  lemma AllHistoryStartsWithGlobal(users: seq<User>, h: map<string, seq<Entry>>)
    ensures var all := AllHistory(users, h);
      |HistoryIn(h, GlobalHistoryKey)| <= |all| &&
      forall k :: 0 <= k < |HistoryIn(h, GlobalHistoryKey)| ==>
        all[k] == Row(HistoryIn(h, GlobalHistoryKey)[k], None)
  {
  }

  /** One more user appends that user's tagged history. */
  lemma UserRowsStep(users: seq<User>, i: nat, h: map<string, seq<Entry>>)
    requires i < |users|
    ensures UserRows(users[..i + 1], h) ==
            UserRows(users[..i], h) + Tagged(HistoryIn(h, GlobalHistoryKey + "_" + users[i].username), Some(users[i].username))
  {
    assert users[..i + 1][..i] == users[..i];
  }

  /**
   * `loadAllHistory` as the loop it is: the global entries, then each
   * user's tagged entries pushed in turn.
   */
  method LoadAllHistory(st: Store) returns (rows: seq<Row>)
    ensures rows == AllHistory(st.users, st.histories)
  {
    var users := st.users;
    var h := st.histories;
    var global := Tagged(HistoryIn(h, GlobalHistoryKey), None);
    var perUser: seq<Row> := [];
    var i := 0;
    while i < |users|
      invariant 0 <= i <= |users|
      invariant perUser == UserRows(users[..i], h)
    {
      UserRowsStep(users, i, h);
      perUser := perUser + Tagged(HistoryIn(h, GlobalHistoryKey + "_" + users[i].username), Some(users[i].username));
      i := i + 1;
    }
    assert users[..i] == users;
    rows := global + perUser;
  }

  // ------------------------------------------------------------------
  // Filters
  // ------------------------------------------------------------------

  /** `tx.type === typeFilter`, unless the filter is `all`. */
  function ByType(rows: seq<Row>, typeFilter: string): (r: seq<Row>)
    ensures typeFilter == "all" ==> r == rows
    ensures typeFilter != "all" ==> r == Filter(rows, (row: Row) => KindName(row.entry.kind) == typeFilter)
    ensures forall row :: row in r <==> row in rows && (typeFilter == "all" || KindName(row.entry.kind) == typeFilter)
  {
    if typeFilter == "all" then rows else OfType(rows, typeFilter)
  }

  function OfType(rows: seq<Row>, t: string): (r: seq<Row>)
    ensures r == Filter(rows, (row: Row) => KindName(row.entry.kind) == t)
    ensures forall row :: row in r <==> row in rows && KindName(row.entry.kind) == t
  {
    if rows == [] then []
    else if KindName(rows[0].entry.kind) == t then [rows[0]] + OfType(rows[1..], t)
    else OfType(rows[1..], t)
  }

  /** The search text, already lower-cased, found in the txnId, the note or the source user. */
  predicate Mentions(row: Row, q: string)
  {
    Contains(Lower(row.entry.txnId), q) || Contains(Lower(row.entry.note), q) ||
    (row.source.Some? && Contains(Lower(row.source.value), q))
  }

  /** The search filter; an empty query keeps everything. */
  function BySearch(rows: seq<Row>, query: string): (r: seq<Row>)
    ensures query == [] ==> r == rows
    ensures query != [] ==> r == Filter(rows, (row: Row) => Mentions(row, Lower(query)))
    ensures forall row :: row in r <==> row in rows && (query == [] || Mentions(row, Lower(query)))
  {
    if Lower(query) == [] then rows else Mentioning(rows, Lower(query))
  }

  function Mentioning(rows: seq<Row>, q: string): (r: seq<Row>)
    ensures r == Filter(rows, (row: Row) => Mentions(row, q))
    ensures forall row :: row in r <==> row in rows && Mentions(row, q)
  {
    if rows == [] then []
    else if Mentions(rows[0], q) then [rows[0]] + Mentioning(rows[1..], q)
    else Mentioning(rows[1..], q)
  }

  /** A row both filters let through. */
  predicate Shows(row: Row, typeFilter: string, query: string)
  {
    (typeFilter == "all" || KindName(row.entry.kind) == typeFilter) &&
    (query == [] || Mentions(row, Lower(query)))
  }

  /**
   * `filterAndSearchTxns`: the type filter, then the search filter; the
   * two in a row keep, in order, the rows that pass both.
   */
  function Filtered(rows: seq<Row>, typeFilter: string, query: string): (r: seq<Row>)
    ensures r == Filter(rows, (row: Row) => Shows(row, typeFilter, query))
    ensures forall row :: row in r <==> row in rows && Shows(row, typeFilter, query)
  {
    BothFilters(rows, typeFilter, query);
    BySearch(ByType(rows, typeFilter), query)
  }

  lemma BothFilters(rows: seq<Row>, typeFilter: string, query: string)
    ensures BySearch(ByType(rows, typeFilter), query) == Filter(rows, (row: Row) => Shows(row, typeFilter, query))
  {
    var ofType := (row: Row) => KindName(row.entry.kind) == typeFilter;
    var found := (row: Row) => Mentions(row, Lower(query));
    var both := (row: Row) => Shows(row, typeFilter, query);
    if typeFilter == "all" && query == [] {
      FilterKeepsAll(rows, both);
    } else if typeFilter == "all" {
      FilterExt(rows, found, both);
    } else if query == [] {
      FilterExt(rows, ofType, both);
    } else {
      FilterOfFilter(rows, ofType, found, both);
    }
  }

  // ------------------------------------------------------------------
  // Sorting and de-duplication
  // ------------------------------------------------------------------

  ghost predicate NewestFirst(s: seq<Row>)
  {
    forall i, j :: 0 <= i < j < |s| ==> s[i].entry.date >= s[j].entry.date
  }

  /** Exchanges two neighbouring entries. */
  method SwapDown(a: array<Row>, j: nat)
    requires 0 < j < a.Length
    modifies a
    ensures a[..] == old(a[..])[j - 1 := old(a[j])][j := old(a[j - 1])]
    ensures multiset(a[..]) == multiset(old(a[..]))
  {
    a[j - 1], a[j] := a[j], a[j - 1];
  }

  /**
   * Moves `a[i]` left past the strictly older entries before it, so
   * that `a[..i + 1]` is newest first when `a[..i]` was.
   */
  method SinkNewer(a: array<Row>, i: nat)
    requires i < a.Length && NewestFirst(a[..i])
    modifies a
    ensures NewestFirst(a[..i + 1])
    ensures multiset(a[..]) == multiset(old(a[..]))
    ensures a[i + 1..] == old(a[i + 1..])
  {
    var j := i;
    while j > 0 && a[j - 1].entry.date < a[j].entry.date
      invariant 0 <= j <= i
      invariant forall k, m :: 0 <= k < m <= i && k != j && m != j ==> a[k].entry.date >= a[m].entry.date
      invariant forall m :: j < m <= i ==> a[j].entry.date > a[m].entry.date
      invariant multiset(a[..]) == multiset(old(a[..]))
      invariant a[i + 1..] == old(a[i + 1..])
    {
      SwapDown(a, j);
      j := j - 1;
    }
  }

  /**
   * `history.sort((a, b) => b.date - a.date)` in place: an insertion sort
   * that moves a newer entry left past older ones only, so equal dates
   * keep their order.
   */
  method SortNewestFirst(a: array<Row>)
    modifies a
    ensures NewestFirst(a[..])
    ensures multiset(a[..]) == multiset(old(a[..]))
  {
    var i := 0;
    while i < a.Length
      invariant 0 <= i <= a.Length
      invariant NewestFirst(a[..i])
      invariant multiset(a[..]) == multiset(old(a[..]))
    {
      SinkNewer(a, i);
      i := i + 1;
    }
    assert a[..i] == a[..];
  }

  /** The de-duplication key `${txnId}_${type}_${amount.toFixed(2)}`. */
  function Key(row: Row): string
  {
    row.entry.txnId + "_" + KindName(row.entry.kind) + "_" + Fixed2(row.entry.amount)
  }

  function Keys(rows: seq<Row>): set<string>
  {
    set row | row in rows :: Key(row)
  }

  /** The rows whose key has not been seen yet, first occurrences only. */
  function FirstPerKey(rows: seq<Row>, seen: set<string>): seq<Row>
  {
    if rows == [] then []
    else if Key(rows[0]) in seen then FirstPerKey(rows[1..], seen)
    else [rows[0]] + FirstPerKey(rows[1..], seen + {Key(rows[0])})
  }

  ghost predicate DistinctKeys(rows: seq<Row>)
  {
    forall i, j :: 0 <= i < j < |rows| ==> Key(rows[i]) != Key(rows[j])
  }

  /** `s` can be obtained from `t` by deleting elements. */
  ghost predicate IsSubsequence(s: seq<Row>, t: seq<Row>)
    decreases |t|
  {
    s == [] || (t != [] && ((s[0] == t[0] && IsSubsequence(s[1..], t[1..])) || IsSubsequence(s, t[1..])))
  }

  /**
   * The kept rows repeat no key, avoid the keys already seen, come from
   * the input in order, and every key of the input not seen before is kept.
   */
  lemma {:induction false} FirstPerKeyProps(rows: seq<Row>, seen: set<string>)
    ensures var r := FirstPerKey(rows, seen);
      DistinctKeys(r) && (forall row :: row in r ==> Key(row) !in seen) &&
      IsSubsequence(r, rows) && Keys(r) == Keys(rows) - seen
    decreases |rows|
  {
    var r := FirstPerKey(rows, seen);
    if rows == [] {
      assert Keys(rows) == {};
    } else {
      var x := rows[0];
      var seen' := if Key(x) in seen then seen else seen + {Key(x)};
      FirstPerKeyProps(rows[1..], seen');
      var t := FirstPerKey(rows[1..], seen');
      assert Keys(rows) == {Key(x)} + Keys(rows[1..]) by {
        assert forall row :: row in rows <==> row == x || row in rows[1..];
      }
      if Key(x) in seen {
        assert r == t;
        assert IsSubsequence(r, rows) by { SubsequenceOfTail(t, rows); }
      } else {
        assert r == [x] + t;
        assert r[1..] == t;
        forall i, j | 0 <= i < j < |r| ensures Key(r[i]) != Key(r[j])
        {
          if i == 0 {
            assert r[j] == t[j - 1] && r[j] in t;
          } else {
            assert r[i] == t[i - 1] && r[j] == t[j - 1];
          }
        }
        assert Keys(r) == {Key(x)} + Keys(t) by {
          assert forall row :: row in r <==> row == x || row in t;
        }
      }
    }
  }

  lemma SubsequenceOfTail(s: seq<Row>, t: seq<Row>)
    requires t != [] && IsSubsequence(s, t[1..])
    ensures IsSubsequence(s, t)
  {
  }

  /**
   * The de-duplication loop of `renderTxnTable` with its `Set` of seen
   * keys: each row whose key is new is kept and its key remembered.
   */
  method UniqueRows(sorted: seq<Row>) returns (shown: seq<Row>)
    ensures shown == FirstPerKey(sorted, {})
  {
    var seen: set<string> := {};
    shown := [];
    var i := 0;
    while i < |sorted|
      invariant 0 <= i <= |sorted|
      invariant shown + FirstPerKey(sorted[i..], seen) == FirstPerKey(sorted, {})
    {
      assert sorted[i..][0] == sorted[i] && sorted[i..][1..] == sorted[i + 1..];
      var key := Key(sorted[i]);
      if key !in seen {
        seen := seen + {key};
        shown := shown + [sorted[i]];
      }
      i := i + 1;
    }
    assert sorted[i..] == [];
    assert sorted[0..] == sorted;
  }

  /**
   * `renderTxnTable`: the rows sorted newest first in an array, then one
   * row per key; the displayed count is the length of what is shown.
   */
  method RenderTable(rows: seq<Row>) returns (shown: seq<Row>, count: nat)
    ensures count == |shown|
    ensures DistinctKeys(shown) && Keys(shown) == Keys(rows)
    ensures forall row :: row in shown ==> row in rows
    ensures exists sorted :: NewestFirst(sorted) && multiset(sorted) == multiset(rows) &&
                             shown == FirstPerKey(sorted, {})
    ensures NewestFirst(shown)
  {
    var a := new Row[|rows|](k requires 0 <= k < |rows| => rows[k]);
    assert a[..] == rows;
    SortNewestFirst(a);
    var sorted := a[..];
    shown := UniqueRows(sorted);
    FirstPerKeyProps(sorted, {});
    assert Keys(sorted) == Keys(rows) by {
      forall row ensures row in sorted <==> row in rows {
        assert row in sorted <==> row in multiset(sorted);
        assert row in rows <==> row in multiset(rows);
      }
    }
    SubsequenceMembers(shown, sorted);
    SubsequenceNewestFirst(shown, sorted);
    forall row | row in shown ensures row in rows {
      assert row in sorted;
      assert row in multiset(sorted);
    }
    count := |shown|;
  }

  /** Dropping rows from a list sorted newest first leaves it sorted. */
  lemma {:induction false} SubsequenceNewestFirst(s: seq<Row>, t: seq<Row>)
    requires IsSubsequence(s, t) && NewestFirst(t)
    ensures NewestFirst(s)
    decreases |t|
  {
    if s != [] {
      assert NewestFirst(t[1..]) by {
        forall i, j | 0 <= i < j < |t[1..]| ensures t[1..][i].entry.date >= t[1..][j].entry.date {
          assert t[1..][i] == t[i + 1] && t[1..][j] == t[j + 1];
        }
      }
      if s[0] == t[0] && IsSubsequence(s[1..], t[1..]) {
        SubsequenceNewestFirst(s[1..], t[1..]);
        SubsequenceMembers(s[1..], t[1..]);
        forall i, j | 0 <= i < j < |s| ensures s[i].entry.date >= s[j].entry.date {
          assert s[j] == s[1..][j - 1];
          if i == 0 {
            assert s[j] in t[1..];
            var k :| 0 <= k < |t[1..]| && t[1..][k] == s[j];
            assert t[k + 1] == s[j];
          } else {
            assert s[i] == s[1..][i - 1];
          }
        }
      } else {
        SubsequenceNewestFirst(s, t[1..]);
      }
    }
  }

  lemma {:induction false} SubsequenceMembers(s: seq<Row>, t: seq<Row>)
    requires IsSubsequence(s, t)
    ensures forall row :: row in s ==> row in t
    decreases |t|
  {
    if s != [] {
      assert t != [];
      if s[0] == t[0] && IsSubsequence(s[1..], t[1..]) {
        SubsequenceMembers(s[1..], t[1..]);
        assert forall row :: row in s ==> row == s[0] || row in s[1..];
      } else {
        SubsequenceMembers(s, t[1..]);
      }
    }
  }

  /** The page's search: everything merged, filtered, then rendered. */
  method FilterAndSearch(st: Store, typeFilter: string, query: string) returns (shown: seq<Row>, count: nat)
    ensures count == |shown| && DistinctKeys(shown) && NewestFirst(shown)
    ensures Keys(shown) == Keys(Filtered(AllHistory(st.users, st.histories), typeFilter, query))
    ensures forall row :: row in shown ==>
      row in AllHistory(st.users, st.histories) &&
      (typeFilter == "all" || KindName(row.entry.kind) == typeFilter) &&
      (query == [] || Mentions(row, Lower(query)))
  {
    var all := LoadAllHistory(st);
    shown, count := RenderTable(Filtered(all, typeFilter, query));
  }
}
