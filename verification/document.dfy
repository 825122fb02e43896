/**
  The document each successful symbol writes, and where it is written. The
  document lives in the `market_data` collection under the cleaned ticker. It
  names that cleaned ticker and the full symbol, holds the profile's sub-map
  under the profile's name and every flat copy at the top level, and ends
  with the server-timestamp sentinel and the data-source tag. It is written
  as a merge, so fields it does not name survive.
 */
module Document {
  import opened Values
  import opened Dicts
  import opened Normalize
  import opened Profiles
  import opened Store

  const Collection := "market_data"
  const DataSource := "Yahoo Finance"

  /** The `**flat_data` splice: every flat value as a number field. */
  function Numbers(flat: map<string, Value>): (r: map<string, Field>)
    ensures r.Keys == flat.Keys
    ensures forall k :: k in flat ==> r[k] == Number(flat[k])
  {
    map k | k in flat :: Number(flat[k])
  }

  /**
    The dict literal, evaluated left to right as Python does: the three leading
    entries, then the flat copy spliced in, then the timestamp and the tag.
   */
  function Compose(ticker: string, name: string, section: map<string, Value>, flat: map<string, Value>): Doc {
    var head := map["ticker" := Text(Clean(ticker)), "fullTicker" := Text(ticker), name := Nested(section)];
    (head + Numbers(flat))["lastUpdated" := ServerTimestamp]["dataSource" := Text(DataSource)]
  }

  function Build(p: Profile, ticker: string, info: Snapshot): Doc {
    Compose(ticker, SectionName(p), Section(p, info), Flat(p, info))
  }

  datatype WriteOp = WriteOp(path: DocPath, doc: Doc)

  /** The merge write one successful symbol issues. */
  function PlanWrite(p: Profile, ticker: string, info: Snapshot): WriteOp {
    WriteOp(DocPath(Collection, Clean(ticker)), Build(p, ticker, info))
  }

  /** The keys of a written document, in the order the literal lists them. */
  function KeyList(name: string, flatNames: seq<string>): seq<string> {
    ["ticker", "fullTicker", name] + flatNames + ["lastUpdated", "dataSource"]
  }

  function DocKeys(p: Profile): seq<string> {
    KeyList(SectionName(p), FlatNames(Table(p)))
  }

  /** The keys every document holds whatever the profile. */
  predicate Reserved(k: string) {
    k == "ticker" || k == "fullTicker" || k == "lastUpdated" || k == "dataSource"
  }

  /** A sub-map name and flat names that avoid the fixed keys and each other. */
  predicate KeysFree(name: string, flatNames: seq<string>) {
    && !Reserved(name)
    && forall i :: 0 <= i < |flatNames| ==> !Reserved(flatNames[i]) && flatNames[i] != name
  }

  lemma RealtimeKeysFree() ensures KeysFree(SectionName(Realtime), FlatNames(Table(Realtime))) {}
  lemma DailyKeysFree() ensures KeysFree(SectionName(Daily), FlatNames(Table(Daily))) {}
  lemma MonthlyKeysFree() ensures KeysFree(SectionName(Monthly), FlatNames(Table(Monthly))) {}

  lemma ProfileKeysFree(p: Profile)
    ensures KeysFree(SectionName(p), FlatNames(Table(p)))
  {
    match p
    case Realtime => RealtimeKeysFree();
    case Daily => DailyKeysFree();
    case Monthly => MonthlyKeysFree();
  }

  /** A key list holds the fixed keys, the sub-map name and the flat names, and nothing else. */
  lemma KeyListMembers(name: string, flatNames: seq<string>, k: string)
    ensures k in KeyList(name, flatNames) <==>
              k in {"ticker", "fullTicker", name, "lastUpdated", "dataSource"} || k in flatNames
  {
    var keys := KeyList(name, flatNames);
    if k in flatNames {
      var i :| 0 <= i < |flatNames| && flatNames[i] == k;
      assert keys[i + 3] == k;
    }
    if k in keys {
      var i :| 0 <= i < |keys| && keys[i] == k;
      if 3 <= i < |flatNames| + 3 {
        assert flatNames[i - 3] == k;
      }
    }
  }

  /** Free, distinct flat names make a key list without repeats. */
  lemma KeyListDistinct(name: string, flatNames: seq<string>)
    requires KeysFree(name, flatNames) && Distinct(flatNames)
    ensures Distinct(KeyList(name, flatNames))
  {
    var keys := KeyList(name, flatNames);
    forall i, j | 0 <= i < j < |keys| ensures keys[i] != keys[j] {
      if 3 <= i < |flatNames| + 3 {
        assert keys[i] == flatNames[i - 3];
      }
      if 3 <= j < |flatNames| + 3 {
        assert keys[j] == flatNames[j - 3];
      }
    }
  }

  /** Each key of the literal holds its own entry when no other entry reuses it. */
  lemma ComposeShape(ticker: string, name: string, section: map<string, Value>, flat: map<string, Value>)
    requires !Reserved(name) && name !in flat
    requires forall k :: k in flat ==> !Reserved(k)
    ensures var d := Compose(ticker, name, section, flat);
      && Lookup(d, "ticker") == Some(Text(Clean(ticker)))
      && Lookup(d, "fullTicker") == Some(Text(ticker))
      && Lookup(d, name) == Some(Nested(section))
      && Lookup(d, "lastUpdated") == Some(ServerTimestamp)
      && Lookup(d, "dataSource") == Some(Text(DataSource))
      && (forall k :: k in flat ==> Lookup(d, k) == Some(Number(flat[k])))
      && d.Keys == {"ticker", "fullTicker", name, "lastUpdated", "dataSource"} + flat.Keys
  {
  }

  /** The keys of a composed document are exactly the listed ones, each once. */
  lemma ComposeKeys(ticker: string, name: string, section: map<string, Value>, flat: map<string, Value>,
                    flatNames: seq<string>)
    requires KeysFree(name, flatNames) && Distinct(flatNames)
    requires forall k :: k in flat <==> k in flatNames
    ensures forall k :: k in Compose(ticker, name, section, flat) <==> k in KeyList(name, flatNames)
    ensures |Compose(ticker, name, section, flat)| == |flatNames| + 5
  {
    var d := Compose(ticker, name, section, flat);
    assert d.Keys == {"ticker", "fullTicker", name, "lastUpdated", "dataSource"} + flat.Keys by {
      forall k | k in flat ensures !Reserved(k) && k != name {
        var i :| 0 <= i < |flatNames| && flatNames[i] == k;
      }
      ComposeShape(ticker, name, section, flat);
    }
    forall k ensures k in d <==> k in KeyList(name, flatNames) {
      KeyListMembers(name, flatNames, k);
    }
    KeyListDistinct(name, flatNames);
    DistinctCard(KeyList(name, flatNames), d.Keys);
  }

  /**
    Merged onto a stored document whose sub-map under `name` holds no key the
    new one lacks, a composed document leaves exactly its own sub-map and flat values.
   */
  lemma ComposeMerged(prior: Doc, ticker: string, name: string, section: map<string, Value>,
                      flat: map<string, Value>)
    requires !Reserved(name) && name !in flat
    requires forall k :: k in flat ==> !Reserved(k)
    requires name in prior && prior[name].Nested? ==> prior[name].m.Keys <= section.Keys
    ensures var d := Merge(prior, Compose(ticker, name, section, flat));
      && Lookup(d, name) == Some(Nested(section))
      && forall k :: k in flat ==> Lookup(d, k) == Some(Number(flat[k]))
  {
    var upd := Compose(ticker, name, section, flat);
    ComposeShape(ticker, name, section, flat);
    if name in prior && prior[name].Nested? {
      assert prior[name].m + section == section;
    }
  }

  /** The profile's sub-map name and flat keys avoid the fixed keys and each other. */
  lemma ComposeArgs(p: Profile, info: Snapshot)
    ensures !Reserved(SectionName(p)) && SectionName(p) !in Flat(p, info)
    ensures forall k :: k in Flat(p, info) ==> !Reserved(k)
  {
    var name, fn, flat := SectionName(p), FlatNames(Table(p)), Flat(p, info);
    ProfileKeysFree(p);
    assert forall k :: k in flat <==> k in fn by {
      FlatContents(p, info);
    }
    forall k | k in flat ensures !Reserved(k) && k != name {
      var i :| 0 <= i < |fn| && fn[i] == k;
    }
  }

  /**
    The written document holds the cleaned ticker, the full symbol, the
    profile's sub-map under the profile's name, one flat number per table row
    equal to its nested counterpart, the server timestamp and the data-source tag.
   */
  lemma DocumentFields(p: Profile, ticker: string, info: Snapshot)
    ensures var d := Build(p, ticker, info);
      && Lookup(d, "ticker") == Some(Text(Clean(ticker)))
      && Lookup(d, "fullTicker") == Some(Text(ticker))
      && Lookup(d, SectionName(p)) == Some(Nested(Section(p, info)))
      && Lookup(d, "lastUpdated") == Some(ServerTimestamp)
      && Lookup(d, "dataSource") == Some(Text(DataSource))
      && (forall i :: 0 <= i < |Table(p)| ==>
            Lookup(d, Table(p)[i].flatName) == Some(Number(Section(p, info)[Table(p)[i].name])))
  {
    ComposeArgs(p, info);
    ComposeShape(ticker, SectionName(p), Section(p, info), Flat(p, info));
    FlatContents(p, info);
    var fn := FlatNames(Table(p));
    forall i | 0 <= i < |Table(p)| ensures Table(p)[i].flatName in Flat(p, info) {
      assert fn[i] == Table(p)[i].flatName;
    }
  }

  /** The written document has no key besides those: `|Table(p)| + 5` keys in all. */
  lemma DocumentKeys(p: Profile, ticker: string, info: Snapshot)
    ensures forall k :: k in Build(p, ticker, info) <==> k in DocKeys(p)
    ensures |Build(p, ticker, info)| == |Table(p)| + 5
  {
    var fn := FlatNames(Table(p));
    ProfileKeysFree(p);
    TablesWellFormed(p);
    assert forall k :: k in Flat(p, info) <==> k in fn by {
      FlatContents(p, info);
    }
    ComposeKeys(ticker, SectionName(p), Section(p, info), Flat(p, info), fn);
  }

  /** The write goes to `market_data/<clean ticker>`. */
  lemma WriteTarget(p: Profile, ticker: string, info: Snapshot)
    ensures PlanWrite(p, ticker, info).path.collection == "market_data"
    ensures PlanWrite(p, ticker, info).path.id == Clean(ticker)
    ensures Lookup(PlanWrite(p, ticker, info).doc, "ticker") == Some(Text(PlanWrite(p, ticker, info).path.id))
  {
    DocumentFields(p, ticker, info);
  }

  /** The keys one profile owns in a document: its sub-map and its flat copies. */
  function OwnedKeys(q: Profile): seq<string> {
    [SectionName(q)] + FlatNames(Table(q))
  }

  predicate OwnedBy(q: Profile, k: string) {
    k in OwnedKeys(q)
  }

  predicate Disjoint(a: seq<string>, b: seq<string>) {
    forall i, j :: 0 <= i < |a| && 0 <= j < |b| ==> a[i] != b[j]
  }

  lemma OwnedKeysDisjoint(p: Profile, q: Profile)
    requires p != q
    ensures Disjoint(OwnedKeys(q), DocKeys(p))
  {
    match (p, q)
    case (Realtime, Daily) => RealtimeDailyDisjoint();
    case (Realtime, Monthly) => RealtimeMonthlyDisjoint();
    case (Daily, Realtime) => DailyRealtimeDisjoint();
    case (Daily, Monthly) => DailyMonthlyDisjoint();
    case (Monthly, Realtime) => MonthlyRealtimeDisjoint();
    case (Monthly, Daily) => MonthlyDailyDisjoint();
  }

  lemma RealtimeDailyDisjoint() ensures Disjoint(OwnedKeys(Daily), DocKeys(Realtime)) {}
  lemma RealtimeMonthlyDisjoint() ensures Disjoint(OwnedKeys(Monthly), DocKeys(Realtime)) {}
  lemma DailyRealtimeDisjoint() ensures Disjoint(OwnedKeys(Realtime), DocKeys(Daily)) {}
  lemma DailyMonthlyDisjoint() ensures Disjoint(OwnedKeys(Monthly), DocKeys(Daily)) {}
  lemma MonthlyRealtimeDisjoint() ensures Disjoint(OwnedKeys(Realtime), DocKeys(Monthly)) {}
  lemma MonthlyDailyDisjoint() ensures Disjoint(OwnedKeys(Daily), DocKeys(Monthly)) {}

  /** A profile's write never names a key another profile owns. */
  lemma ProfilesDisjoint(p: Profile, q: Profile, k: string)
    requires p != q && OwnedBy(q, k)
    ensures k !in DocKeys(p)
  {
    OwnedKeysDisjoint(p, q);
    var i :| 0 <= i < |OwnedKeys(q)| && OwnedKeys(q)[i] == k;
  }

  /**
    A write under one profile leaves every field another profile owns as it
    was: a daily write keeps the `realtime` sub-map and `Price`, `Volume`, ...
   */
  lemma OtherProfilesKept(prior: Doc, p: Profile, q: Profile, ticker: string, info: Snapshot)
    requires p != q
    ensures forall k :: k in prior && OwnedBy(q, k) ==>
              k in Merge(prior, Build(p, ticker, info)) && Merge(prior, Build(p, ticker, info))[k] == prior[k]
  {
    forall k | k in prior && OwnedBy(q, k)
      ensures k !in Build(p, ticker, info)
    {
      ProfilesDisjoint(p, q, k);
      DocumentKeys(p, ticker, info);
    }
  }

  /**
    When the stored sub-map was written by the same profile (or is absent),
    the write leaves exactly the new sub-map and the new flat values.
   */
  lemma OwnFieldsReplaced(prior: Doc, p: Profile, ticker: string, info: Snapshot)
    requires SectionInTable(prior, p)
    ensures var d := Merge(prior, Build(p, ticker, info));
      && Lookup(d, SectionName(p)) == Some(Nested(Section(p, info)))
      && forall i :: 0 <= i < |Table(p)| ==>
           Lookup(d, Table(p)[i].flatName) == Some(Number(Section(p, info)[Table(p)[i].name]))
  {
    var name, section, flat := SectionName(p), Section(p, info), Flat(p, info);
    assert name in prior && prior[name].Nested? ==> prior[name].m.Keys <= section.Keys by {
      SectionContents(p, info);
    }
    ComposeArgs(p, info);
    ComposeMerged(prior, ticker, name, section, flat);
    var fn := FlatNames(Table(p));
    FlatContents(p, info);
    forall i | 0 <= i < |Table(p)| ensures Table(p)[i].flatName in flat {
      assert fn[i] == Table(p)[i].flatName;
    }
  }

  /** The sub-map under profile `q`'s name, when there is one, holds only names from `q`'s table. */
  predicate SectionInTable(d: Doc, q: Profile) {
    SectionName(q) in d && d[SectionName(q)].Nested? ==>
      forall j :: j in d[SectionName(q)].m ==> j in Names(Table(q))
  }

  predicate SectionsInTables(d: Doc) {
    SectionInTable(d, Realtime) && SectionInTable(d, Daily) && SectionInTable(d, Monthly)
  }

  /** Every stored document's sub-maps hold only their tables' names; an empty store qualifies. */
  predicate StoreSectionsInTables(db: Db) {
    forall path :: path in db ==> SectionsInTables(db[path])
  }

  /** A profile's write keeps each profile's sub-map within that profile's table. */
  lemma MergeKeepsSection(prior: Doc, p: Profile, q: Profile, ticker: string, info: Snapshot)
    requires SectionInTable(prior, q)
    ensures SectionInTable(Merge(prior, Build(p, ticker, info)), q)
  {
    var upd, name := Build(p, ticker, info), SectionName(q);
    var d := Merge(prior, upd);
    if q == p {
      DocumentFields(p, ticker, info);
      SectionContents(p, info);
      assert name in upd && upd[name] == Nested(Section(p, info));
    } else {
      assert OwnedBy(q, name) by {
        assert OwnedKeys(q)[0] == name;
      }
      ProfilesDisjoint(p, q, name);
      DocumentKeys(p, ticker, info);
      assert name !in upd;
    }
  }

  /** A profile's merge-write onto a store whose sub-maps stay within their tables keeps it so. */
  lemma ApplyKeepsSections(db: Db, p: Profile, ticker: string, info: Snapshot)
    requires StoreSectionsInTables(db)
    ensures var w := PlanWrite(p, ticker, info);
      StoreSectionsInTables(Apply(db, w.path, w.doc))
  {
    var w := PlanWrite(p, ticker, info);
    var r := Apply(db, w.path, w.doc);
    var prior: Doc := if w.path in db then db[w.path] else map[];
    assert r[w.path] == Merge(prior, w.doc);
    MergeKeepsSection(prior, p, Realtime, ticker, info);
    MergeKeepsSection(prior, p, Daily, ticker, info);
    MergeKeepsSection(prior, p, Monthly, ticker, info);
  }
}
