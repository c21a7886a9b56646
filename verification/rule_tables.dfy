/**
 * The three rule tables of the automatic calculator as values: NCM tax rules,
 * ICMS routes between states, and marketplace fee schedules; the seed rows
 * written at every run of the script; and the two ways rows reach a table.
 *
 * `ncm` is keyed by its code and `marketplace` by its unique name, so both are
 * maps, filled with INSERT OR IGNORE (an existing key keeps its row). `icms_uf`
 * has no uniqueness on (origin, destination), so it is a sequence that every
 * run of the script appends to, and a lookup returns the first matching row.
 */
module RuleTables {
  import opened Wrappers

  /** A row of `ncm`: PIS, COFINS and IPI rates (percent) and credit flags. */
  datatype NcmRule = NcmRule(
    code: string, description: string,
    pis: real, cofins: real, ipi: real,
    creditsPis: bool, creditsCofins: bool, creditsIcms: bool,
    notes: Option<string>)

  /** A row of `icms_uf` (its auto-increment id is the row's position). */
  datatype RouteRow = RouteRow(
    origin: string, destination: string,
    internalRate: real, interstateRate: real, fcpRate: real,
    computesDifal: bool)

  /** A row of `marketplace`. */
  datatype MarketplaceRow = MarketplaceRow(
    name: string, commission: real, fixedFee: real,
    prepayment: real, gateway: real, active: bool)

  /** The NCM rows seeded at every run of the script. */
  const SeedNcms: seq<NcmRule> := [
    NcmRule("85171231", "Smartphones", 1.65, 7.60, 0.0, true, true, true, Some("Eletrônicos importados")),
    NcmRule("64022000", "Calçados", 1.65, 7.60, 0.0, true, true, true, Some("Calçados diversos")),
    NcmRule("61091000", "Camisetas de algodão", 1.65, 7.60, 0.0, true, true, true, Some("Vestuário")),
    NcmRule("84713012", "Notebooks", 1.65, 7.60, 0.0, true, true, true, Some("Informática")),
    NcmRule("33049900", "Cosméticos", 1.65, 7.60, 0.0, true, true, true, Some("Beleza")),
    NcmRule("94036000", "Móveis de madeira", 1.65, 7.60, 0.0, true, true, true, Some("Móveis")),
    NcmRule("39269090", "Produtos de plástico", 1.65, 7.60, 0.0, true, true, true, Some("Plásticos")),
    NcmRule("73269090", "Produtos de ferro", 1.65, 7.60, 0.0, true, true, true, Some("Metais"))
  ]

  /** The ICMS routes seeded at every run of the script: (origin, destination, internal, interstate, FCP, DIFAL?). */
  const SeedRoutes: seq<RouteRow> := [
    RouteRow("SP", "SP", 18.0, 18.0, 0.0, false),
    RouteRow("SP", "RJ", 18.0, 12.0, 2.0, true),
    RouteRow("SP", "MG", 18.0, 12.0, 2.0, true),
    RouteRow("SP", "RS", 18.0, 12.0, 2.0, true),
    RouteRow("SP", "BA", 18.0, 7.0, 2.0, true),
    RouteRow("SP", "PR", 18.0, 12.0, 2.0, true),
    RouteRow("SP", "SC", 18.0, 12.0, 2.0, true),
    RouteRow("SP", "PE", 18.0, 7.0, 2.0, true),
    RouteRow("SP", "CE", 18.0, 7.0, 2.0, true),
    RouteRow("SP", "GO", 18.0, 12.0, 2.0, true),
    RouteRow("SP", "AM", 18.0, 7.0, 2.0, true),
    RouteRow("SP", "DF", 18.0, 12.0, 2.0, true),
    RouteRow("RJ", "RJ", 18.0, 18.0, 2.0, false),
    RouteRow("RJ", "SP", 18.0, 12.0, 0.0, true),
    RouteRow("RJ", "MG", 18.0, 12.0, 2.0, true),
    RouteRow("RJ", "RS", 18.0, 12.0, 2.0, true),
    RouteRow("RJ", "BA", 18.0, 7.0, 2.0, true),
    RouteRow("MG", "MG", 18.0, 18.0, 2.0, false),
    RouteRow("MG", "SP", 18.0, 12.0, 0.0, true),
    RouteRow("MG", "RJ", 18.0, 12.0, 2.0, true),
    RouteRow("MG", "RS", 18.0, 12.0, 2.0, true),
    RouteRow("RS", "RS", 18.0, 18.0, 2.0, false),
    RouteRow("RS", "SP", 18.0, 12.0, 0.0, true),
    RouteRow("RS", "SC", 18.0, 12.0, 2.0, true),
    RouteRow("RS", "PR", 18.0, 12.0, 2.0, true),
    RouteRow("BA", "BA", 18.0, 18.0, 2.0, false),
    RouteRow("BA", "SP", 18.0, 7.0, 0.0, true),
    RouteRow("BA", "RJ", 18.0, 7.0, 2.0, true)
  ]

  /** The marketplaces seeded at every run of the script. */
  const SeedMarketplaces: seq<MarketplaceRow> := [
    MarketplaceRow("Mercado Livre", 16.0, 5.0, 2.5, 2.5, true),
    MarketplaceRow("Shopee", 14.0, 0.0, 2.0, 2.0, true),
    MarketplaceRow("Amazon", 15.0, 0.0, 2.5, 2.5, true),
    MarketplaceRow("Magalu", 18.0, 0.0, 2.0, 2.0, true),
    MarketplaceRow("Venda Direta", 0.0, 0.0, 0.0, 0.0, true)
  ]

  predicate Matches(row: RouteRow, origin: string, destination: string)
  {
    row.origin == origin && row.destination == destination
  }

  /** The route lookup: the first row, in insertion order, for the pair. */
  function FirstRoute(rows: seq<RouteRow>, origin: string, destination: string): (r: Option<RouteRow>)
    ensures r.None? <==> forall i :: 0 <= i < |rows| ==> !Matches(rows[i], origin, destination)
    ensures r.Some? ==> exists i :: 0 <= i < |rows| && rows[i] == r.value && Matches(rows[i], origin, destination)
                                    && forall j :: 0 <= j < i ==> !Matches(rows[j], origin, destination)
  {
    if rows == [] then None
    else if Matches(rows[0], origin, destination) then Some(rows[0])
    else
      var r := FirstRoute(rows[1..], origin, destination);
      assert r.Some? ==> exists i :: 1 <= i < |rows| && rows[i] == r.value && Matches(rows[i], origin, destination)
                                     && forall j :: 1 <= j < i ==> !Matches(rows[j], origin, destination);
      r
  }

  /** Appending rows never changes a lookup the earlier rows already answer. */
  lemma {:induction false} FirstRouteAppend(rows: seq<RouteRow>, more: seq<RouteRow>, origin: string, destination: string)
    ensures FirstRoute(rows + more, origin, destination)
         == if FirstRoute(rows, origin, destination).Some? then FirstRoute(rows, origin, destination)
            else FirstRoute(more, origin, destination)
  {
    if rows == [] {
      assert rows + more == more;
    } else {
      assert (rows + more)[0] == rows[0];
      assert (rows + more)[1..] == rows[1..] + more;
      FirstRouteAppend(rows[1..], more, origin, destination);
    }
  }

  /** `rows` written `times` times over, as `times` runs of the script leave the route table. */
  function Repeat(rows: seq<RouteRow>, times: nat): (r: seq<RouteRow>)
    ensures |r| == times * |rows|
  {
    if times == 0 then [] else Repeat(rows, times - 1) + rows
  }

  /** After at least one run the route table begins with one copy of the rows. */
  lemma {:induction false} RepeatStartsWithCopy(rows: seq<RouteRow>, times: nat)
    requires times >= 1
    ensures Repeat(rows, times)[..|rows|] == rows
  {
    if times == 1 {
      assert Repeat(rows, 1) == [] + rows;
    } else {
      RepeatStartsWithCopy(rows, times - 1);
      assert Repeat(rows, times) == Repeat(rows, times - 1) + rows;
    }
  }

  /** Rows that answer every lookup as `rows` does still do so with `rows` appended. */
  lemma AppendAgreeingCopy(prefix: seq<RouteRow>, rows: seq<RouteRow>, origin: string, destination: string)
    requires FirstRoute(prefix, origin, destination) == FirstRoute(rows, origin, destination)
    ensures FirstRoute(prefix + rows, origin, destination) == FirstRoute(rows, origin, destination)
  {
    FirstRouteAppend(prefix, rows, origin, destination);
  }

  /** However many runs have appended the same rows, every lookup is the one over a single copy. */
  lemma {:induction false} FirstRouteRepeat(rows: seq<RouteRow>, times: nat, origin: string, destination: string)
    requires times >= 1
    ensures FirstRoute(Repeat(rows, times), origin, destination) == FirstRoute(rows, origin, destination)
  {
    if times == 1 {
      assert Repeat(rows, 1) == [] + rows == rows;
    } else {
      var prefix := Repeat(rows, times - 1);
      assert Repeat(rows, times) == prefix + rows;
      FirstRouteRepeat(rows, times - 1, origin, destination);
      AppendAgreeingCopy(prefix, rows, origin, destination);
    }
  }

  /** The keys an entry list mentions. */
  function KeysOf<K, V>(entries: seq<(K, V)>): set<K>
  {
    set i | 0 <= i < |entries| :: entries[i].0
  }

  /** One INSERT OR IGNORE: an existing key keeps its value. */
  function InsertOrIgnore<K, V>(m: map<K, V>, key: K, value: V): map<K, V>
  {
    if key in m then m else m[key := value]
  }

  /**
   * INSERT OR IGNORE of a list of entries, in order: the table gains exactly the
   * new keys, and no existing key changes its value.
   */
  function InsertOrIgnoreAll<K, V>(m: map<K, V>, entries: seq<(K, V)>): (r: map<K, V>)
    ensures r.Keys == m.Keys + KeysOf(entries)
    ensures forall k :: k in m ==> r[k] == m[k]
    decreases |entries|
  {
    if entries == [] then m
    else
      var n := |entries| - 1;
      var r := InsertOrIgnoreAll(m, entries[..n]);
      assert KeysOf(entries) == KeysOf(entries[..n]) + {entries[n].0} by {
        assert forall i :: 0 <= i < n ==> entries[..n][i] == entries[i];
      }
      InsertOrIgnore(r, entries[n].0, entries[n].1)
  }

  /** One more entry is one more INSERT OR IGNORE on the table built so far. */
  lemma InsertOrIgnoreAllSnoc<K, V>(m: map<K, V>, entries: seq<(K, V)>, key: K, value: V)
    ensures InsertOrIgnoreAll(m, entries + [(key, value)]) == InsertOrIgnore(InsertOrIgnoreAll(m, entries), key, value)
  {
    assert (entries + [(key, value)])[..|entries|] == entries;
  }

  /** A new key gets the value of its first entry. */
  lemma {:induction false} InsertOrIgnoreAllFirstWins<K, V>(m: map<K, V>, entries: seq<(K, V)>, i: nat)
    requires i < |entries| && entries[i].0 !in m
    requires forall j :: 0 <= j < i ==> entries[j].0 != entries[i].0
    ensures InsertOrIgnoreAll(m, entries)[entries[i].0] == entries[i].1
    decreases |entries|
  {
    var n := |entries| - 1;
    if i < n {
      InsertOrIgnoreAllFirstWins(m, entries[..n], i);
    } else {
      assert entries[i].0 !in KeysOf(entries[..n]);
    }
  }

  /** Inserting keys that are all present already changes nothing. */
  lemma {:induction false} InsertOrIgnoreAllPresent<K, V>(m: map<K, V>, entries: seq<(K, V)>)
    requires KeysOf(entries) <= m.Keys
    ensures InsertOrIgnoreAll(m, entries) == m
    decreases |entries|
  {
    if entries != [] {
      var n := |entries| - 1;
      assert KeysOf(entries[..n]) <= KeysOf(entries) by {
        assert forall i :: 0 <= i < n ==> entries[..n][i] == entries[i];
      }
      InsertOrIgnoreAllPresent(m, entries[..n]);
      assert entries[n].0 in KeysOf(entries);
    }
  }

  /** Seeding a table twice leaves it as seeding it once. */
  lemma InsertOrIgnoreAllIdempotent<K, V>(m: map<K, V>, entries: seq<(K, V)>)
    ensures InsertOrIgnoreAll(InsertOrIgnoreAll(m, entries), entries) == InsertOrIgnoreAll(m, entries)
  {
    InsertOrIgnoreAllPresent(InsertOrIgnoreAll(m, entries), entries);
  }

  /** NCM rows as (code, row) entries of the `ncm` table. */
  function NcmEntries(rows: seq<NcmRule>): (e: seq<(string, NcmRule)>)
    ensures |e| == |rows| && forall i :: 0 <= i < |rows| ==> e[i] == (rows[i].code, rows[i])
  {
    seq(|rows|, i requires 0 <= i < |rows| => (rows[i].code, rows[i]))
  }

  /** Marketplace rows as (name, row) entries of the `marketplace` table. */
  function MarketplaceEntries(rows: seq<MarketplaceRow>): (e: seq<(string, MarketplaceRow)>)
    ensures |e| == |rows| && forall i :: 0 <= i < |rows| ==> e[i] == (rows[i].name, rows[i])
  {
    seq(|rows|, i requires 0 <= i < |rows| => (rows[i].name, rows[i]))
  }

  lemma NcmEntriesSnoc(rows: seq<NcmRule>, i: nat)
    requires i < |rows|
    ensures NcmEntries(rows[..i + 1]) == NcmEntries(rows[..i]) + [(rows[i].code, rows[i])]
  {
  }

  lemma MarketplaceEntriesSnoc(rows: seq<MarketplaceRow>, i: nat)
    requires i < |rows|
    ensures MarketplaceEntries(rows[..i + 1]) == MarketplaceEntries(rows[..i]) + [(rows[i].name, rows[i])]
  {
  }
}
