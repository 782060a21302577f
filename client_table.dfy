/**
 * The client table (components/ClientTable.tsx): a column sort that
 * toggles between ascending and descending, the comparator handed to
 * `Array.prototype.sort`, and the search box that filters the sorted rows.
 */
module ClientTable {

  import opened Wrappers
  import opened Types
  import opened Seqs
  import opened Strings
  import opened CrmService

  /** The four sortable columns. */
  datatype SortKey = Name | Status | AssignedTo | LastUpdate

  datatype Direction = Asc | Desc

  datatype SortConfig = SortConfig(key: SortKey, direction: Direction)

  /** `requestSort(key)`: descending only when the column is already sorted ascending. */
  function NextSortConfig(current: Option<SortConfig>, key: SortKey): (r: SortConfig)
    ensures r.key == key
    ensures r.direction == Desc <==> current == Some(SortConfig(key, Asc))
  {
    if current.Some? && current.value.key == key && current.value.direction == Asc
    then SortConfig(key, Desc)
    else SortConfig(key, Asc)
  }

  /** Clicking the same column again always reverses its direction. */
  lemma RequestSortToggles(current: Option<SortConfig>, key: SortKey)
    ensures NextSortConfig(Some(NextSortConfig(current, key)), key).direction
         != NextSortConfig(current, key).direction
  {
  }

  // ---------------------------------------------------------------------------
  // The comparator

  /** The value a column holds: the strings, or the `Date` compared by its time. */
  datatype KeyValue = Text(text: string) | Time(time: int)

  function SortValue(c: Client, key: SortKey): KeyValue
  {
    match key
    case Name => Text(c.name)
    case Status => Text(StageValue(c.status))
    case AssignedTo => Text(c.assignedTo)
    case LastUpdate => Time(c.lastUpdate)
  }

  /** JavaScript `<` on two values of one column. */
  predicate ValueLess(u: KeyValue, v: KeyValue)
  {
    match (u, v)
    case (Text(s), Text(t)) => StringLess(s, t)
    case (Time(x), Time(y)) => x < y
    case _ => false
  }

  /** `<` never holds in both directions between two values of a column. */
  lemma ValueLessAsymmetric(u: KeyValue, v: KeyValue)
    ensures !(ValueLess(u, v) && ValueLess(v, u))
  {
    if u.Text? && v.Text? {
      StringLessAsymmetric(u.text, v.text);
    }
  }

  /**
   * The comparator of the source: negative when `a` goes first, positive
   * when `b` goes first, zero when neither value is below the other.
   */
  function Compare(a: Client, b: Client, cfg: SortConfig): (r: int)
    ensures -1 <= r <= 1
    ensures var x := SortValue(a, cfg.key); var y := SortValue(b, cfg.key);
      && (r < 0 <==> if cfg.direction == Asc then ValueLess(x, y) else ValueLess(y, x))
      && (r > 0 <==> if cfg.direction == Asc then ValueLess(y, x) else ValueLess(x, y))
  {
    var x := SortValue(a, cfg.key);
    var y := SortValue(b, cfg.key);
    ValueLessAsymmetric(x, y);
    if ValueLess(x, y) then (if cfg.direction == Asc then -1 else 1)
    else if ValueLess(y, x) then (if cfg.direction == Asc then 1 else -1)
    else 0
  }

  /** Swapping the arguments negates the comparator. */
  lemma CompareAntisymmetric(a: Client, b: Client, cfg: SortConfig)
    ensures Compare(a, b, cfg) == -Compare(b, a, cfg)
  {
    var x := SortValue(a, cfg.key);
    var y := SortValue(b, cfg.key);
    if x.Text? && y.Text? {
      StringLessAsymmetric(x.text, y.text);
    }
  }

  /** The comparator is zero exactly when both clients hold the same value in the column. */
  lemma CompareZeroIffSameValue(a: Client, b: Client, cfg: SortConfig)
    ensures Compare(a, b, cfg) == 0 <==> SortValue(a, cfg.key) == SortValue(b, cfg.key)
  {
    var x := SortValue(a, cfg.key);
    var y := SortValue(b, cfg.key);
    if x.Text? && y.Text? {
      StringLessAsymmetric(x.text, y.text);
      StringLessTotal(x.text, y.text);
      if x.text == y.text {
        StringLessIrreflexive(x.text);
      }
    }
  }

  /** "Goes no later than" is transitive: the comparator is a consistent order. */
  lemma CompareTransitive(a: Client, b: Client, c: Client, cfg: SortConfig)
    requires Compare(a, b, cfg) <= 0 && Compare(b, c, cfg) <= 0
    ensures Compare(a, c, cfg) <= 0
  {
    var x := SortValue(a, cfg.key);
    var y := SortValue(b, cfg.key);
    var z := SortValue(c, cfg.key);
    if x.Text? {
      if cfg.direction == Asc {
        StringNotBelowTransitive(x.text, y.text, z.text);
      } else {
        StringNotBelowTransitive(z.text, y.text, x.text);
      }
    }
  }

  /** Every client goes no later than the one after it, for every pair. */
  predicate Ordered(s: seq<Client>, cfg: SortConfig)
  {
    forall i, j :: 0 <= i < j < |s| ==> Compare(s[i], s[j], cfg) <= 0
  }

  // ---------------------------------------------------------------------------
  // The sort: `Array.prototype.sort` is stable, and its result is that of a
  // stable insertion sort with the same comparator.

  /** Inserts `x` before the first element it does not come after. */
  function Insert(x: Client, s: seq<Client>, cfg: SortConfig): (r: seq<Client>)
    ensures multiset(r) == multiset(s) + multiset{x}
  {
    if |s| == 0 then [x]
    else if Compare(x, s[0], cfg) <= 0 then [x] + s
    else
      assert s == [s[0]] + s[1..];
      [s[0]] + Insert(x, s[1..], cfg)
  }

  function Sort(s: seq<Client>, cfg: SortConfig): (r: seq<Client>)
    ensures multiset(r) == multiset(s)
  {
    if |s| == 0 then []
    else
      assert s == [s[0]] + s[1..];
      Insert(s[0], Sort(s[1..], cfg), cfg)
  }

  /** Putting in front an element that goes no later than any other keeps a list ordered. */
  lemma PrependOrdered(x: Client, s: seq<Client>, cfg: SortConfig)
    requires Ordered(s, cfg)
    requires forall j :: 0 <= j < |s| ==> Compare(x, s[j], cfg) <= 0
    ensures Ordered([x] + s, cfg)
  {
    var r := [x] + s;
    forall i, j | 0 <= i < j < |r| ensures Compare(r[i], r[j], cfg) <= 0 {
      assert r[j] == s[j - 1];
      if i > 0 {
        assert r[i] == s[i - 1];
      }
    }
  }

  /** Every element of an insertion is the inserted one or one of the list's. */
  lemma InsertMembers(x: Client, s: seq<Client>, cfg: SortConfig)
    ensures forall j :: 0 <= j < |Insert(x, s, cfg)| ==>
      Insert(x, s, cfg)[j] == x || Insert(x, s, cfg)[j] in s
  {
    var r := Insert(x, s, cfg);
    forall j | 0 <= j < |r| ensures r[j] == x || r[j] in s {
      assert r[j] in multiset(r);
    }
  }

  lemma {:induction false} InsertOrdered(x: Client, s: seq<Client>, cfg: SortConfig)
    requires Ordered(s, cfg)
    ensures Ordered(Insert(x, s, cfg), cfg)
  {
    if |s| == 0 {
    } else if Compare(x, s[0], cfg) <= 0 {
      forall j | 0 <= j < |s| ensures Compare(x, s[j], cfg) <= 0 {
        if j > 0 {
          CompareTransitive(x, s[0], s[j], cfg);
        }
      }
      PrependOrdered(x, s, cfg);
    } else {
      InsertOrdered(x, s[1..], cfg);
      CompareAntisymmetric(x, s[0], cfg);
      var tail := Insert(x, s[1..], cfg);
      InsertMembers(x, s[1..], cfg);
      forall j | 0 <= j < |tail| ensures Compare(s[0], tail[j], cfg) <= 0 {
        if tail[j] != x {
          var k :| 0 <= k < |s[1..]| && s[1..][k] == tail[j];
          assert s[k + 1] == tail[j];
        }
      }
      PrependOrdered(s[0], tail, cfg);
    }
  }

  /** The sort's result is ordered by the comparator. */
  lemma {:induction false} SortOrdered(s: seq<Client>, cfg: SortConfig)
    ensures Ordered(Sort(s, cfg), cfg)
  {
    if |s| > 0 {
      SortOrdered(s[1..], cfg);
      InsertOrdered(s[0], Sort(s[1..], cfg), cfg);
    }
  }

  /** A list that is already ordered comes back as it is: ties keep their order. */
  lemma {:induction false} SortOfOrdered(s: seq<Client>, cfg: SortConfig)
    requires Ordered(s, cfg)
    ensures Sort(s, cfg) == s
  {
    if |s| > 0 {
      assert Ordered(s[1..], cfg);
      SortOfOrdered(s[1..], cfg);
      if |s| > 1 {
        assert Compare(s[0], s[1], cfg) <= 0;
      }
      assert [s[0]] + s[1..] == s;
    }
  }

  /** `sortedClients`: a copy of the list, sorted when a sort is chosen. */
  function SortedClients(clients: seq<Client>, cfg: Option<SortConfig>): (r: seq<Client>)
    ensures multiset(r) == multiset(clients)
    ensures cfg.None? ==> r == clients
    ensures cfg.Some? ==> Ordered(r, cfg.value)
  {
    if cfg.None? then clients
    else
      SortOrdered(clients, cfg.value);
      Sort(clients, cfg.value)
  }

  // ---------------------------------------------------------------------------
  // Search

  /** The lower-cased term occurs in the lower-cased name, email or status. */
  predicate Matches(c: Client, term: string)
  {
    var t := Lower(term);
    Includes(Lower(c.name), t) || Includes(Lower(c.email), t) || Includes(Lower(StageValue(c.status)), t)
  }

  function MatchesTerm(term: string): Client -> bool
  {
    (c: Client) => Matches(c, term)
  }

  /** `filteredClients`: the sorted rows that match the search term, in sorted order. */
  function FilteredClients(sorted: seq<Client>, term: string): (r: seq<Client>)
    ensures forall c :: c in r <==> c in sorted && Matches(c, term)
    ensures IsSubsequence(r, sorted)
    ensures forall c :: multiset(r)[c] == if Matches(c, term) then multiset(sorted)[c] else 0
  {
    var r := Filter(sorted, MatchesTerm(term));
    assert forall c :: c in r <==> c in sorted && Matches(c, term) by {
      forall c ensures c in r <==> c in sorted && Matches(c, term) {
        if c in sorted {
          var k :| 0 <= k < |sorted| && sorted[k] == c;
        }
        if c in r {
          var k :| 0 <= k < |r| && r[k] == c;
        }
      }
    }
    FilterIsSubsequence(sorted, MatchesTerm(term));
    FilterCounts(sorted, MatchesTerm(term));
    r
  }

  /** An empty search box shows every row. */
  lemma EmptySearchKeepsAll(sorted: seq<Client>)
    ensures FilteredClients(sorted, "") == sorted
  {
    forall i | 0 <= i < |sorted| ensures MatchesTerm("")(sorted[i]) {
      assert Lower("") == "";
    }
    FilterKeepsAll(sorted, MatchesTerm(""));
  }

  const ASC_ARROW: string := "\U{25B2}"
  const DESC_ARROW: string := "\U{25BC}"

  /** `getSortIndicator(key)`: an arrow on the sorted column only. */
  function SortIndicator(cfg: Option<SortConfig>, key: SortKey): (r: Option<string>)
    ensures r.None? <==> cfg.None? || cfg.value.key != key
    ensures r == Some(ASC_ARROW) <==> cfg == Some(SortConfig(key, Asc))
    ensures r == Some(DESC_ARROW) <==> cfg == Some(SortConfig(key, Desc))
  {
    assert ASC_ARROW[0] != DESC_ARROW[0];
    if cfg.None? || cfg.value.key != key then None
    else match cfg.value.direction
      case Asc => Some(ASC_ARROW)
      case Desc => Some(DESC_ARROW)
  }

  // ---------------------------------------------------------------------------
  // The component's state

  class Table {
    const store: CrmStore
    const currentUser: User
    var clients: seq<Client>
    var searchTerm: string
    var sortConfig: Option<SortConfig>

    constructor (store: CrmStore, currentUser: User)
      ensures this.store == store && this.currentUser == currentUser
      ensures clients == [] && searchTerm == "" && sortConfig == None
    {
      this.store := store;
      this.currentUser := currentUser;
      clients := [];
      searchTerm := "";
      sortConfig := None;
    }

    /** Loads the clients the current user may see. */
    method FetchClients()
      modifies this`clients
      ensures clients == VisibleClients(store.clients, currentUser)
    {
      clients := store.GetClients(currentUser);
    }

    method SetSearchTerm(term: string)
      modifies this`searchTerm
      ensures searchTerm == term
    {
      searchTerm := term;
    }

    method RequestSort(key: SortKey)
      modifies this`sortConfig
      ensures sortConfig == Some(NextSortConfig(old(sortConfig), key))
    {
      var direction := Asc;
      if sortConfig.Some? && sortConfig.value.key == key && sortConfig.value.direction == Asc {
        direction := Desc;
      }
      sortConfig := Some(SortConfig(key, direction));
    }

    /** The rows on screen: the loaded clients, sorted, then searched. */
    function Rows(): (r: seq<Client>)
      reads this
      ensures IsSubsequence(r, SortedClients(clients, sortConfig))
      ensures forall c :: c in r <==> c in clients && Matches(c, searchTerm)
      ensures forall c :: multiset(r)[c] == if Matches(c, searchTerm) then multiset(clients)[c] else 0
    {
      var sorted := SortedClients(clients, sortConfig);
      PermutationSameMembers(clients, sorted);
      FilteredClients(sorted, searchTerm)
    }
  }
}
