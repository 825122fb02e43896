/**
  The three field tables. Each profile lists, per output field, where its
  value comes from in the provider snapshot (one key, or `primary or
  secondary`) and the name of the flat copy kept at the top level of the
  document for older readers.
 */
module Profiles {
  import opened Values
  import opened Dicts

  /** `realtime` is written by the intraday run, `daily` by the daily run, `monthly` by the weekly run. */
  datatype Profile = Realtime | Daily | Monthly

  datatype Source = Direct(key: string) | Fallback(primary: string, secondary: string)

  datatype FieldSpec = FieldSpec(name: string, source: Source, flatName: string)

  /** The document key the profile's sub-map is stored under. */
  function SectionName(p: Profile): string {
    match p
    case Realtime => "realtime"
    case Daily => "daily"
    case Monthly => "monthly"
  }

  function Table(p: Profile): seq<FieldSpec> {
    match p
    case Realtime => [
      FieldSpec("price", Fallback("currentPrice", "regularMarketPrice"), "Price"),
      FieldSpec("volume", Fallback("volume", "regularMarketVolume"), "Volume"),
      FieldSpec("dayHigh", Fallback("dayHigh", "regularMarketDayHigh"), "DayHigh"),
      FieldSpec("dayLow", Fallback("dayLow", "regularMarketDayLow"), "DayLow"),
      FieldSpec("open", Fallback("open", "regularMarketOpen"), "Open"),
      FieldSpec("change", Direct("regularMarketChange"), "Change"),
      FieldSpec("changePercent", Direct("regularMarketChangePercent"), "ChangePercent")
    ]
    case Daily => [
      FieldSpec("marketCap", Direct("marketCap"), "MarketCap"),
      FieldSpec("peRatio", Fallback("trailingPE", "forwardPE"), "PE"),
      FieldSpec("previousClose", Fallback("previousClose", "regularMarketPreviousClose"), "PreviousClose"),
      FieldSpec("week52High", Direct("fiftyTwoWeekHigh"), "52WeekHigh"),
      FieldSpec("week52Low", Direct("fiftyTwoWeekLow"), "52WeekLow"),
      FieldSpec("beta", Direct("beta"), "Beta"),
      FieldSpec("avgVolume", Fallback("averageVolume", "averageVolume10days"), "AvgVolume")
    ]
    case Monthly => [
      FieldSpec("sharesOutstanding", Direct("sharesOutstanding"), "SharesOutstanding"),
      FieldSpec("eps", Fallback("trailingEps", "forwardEps"), "EPS"),
      FieldSpec("float", Direct("floatShares"), "Float")
    ]
  }

  /** `info.get(key)`, or `info.get(primary) or info.get(secondary)`. */
  function Extract(src: Source, info: Snapshot): Value {
    match src
    case Direct(k) => Get(info, k)
    case Fallback(a, b) => Or(Get(info, a), Get(info, b))
  }

  function SectionEntries(specs: seq<FieldSpec>, info: Snapshot): (e: Entries<Value>)
    ensures |e| == |specs|
    ensures forall i :: 0 <= i < |specs| ==> e[i] == (specs[i].name, Extract(specs[i].source, info))
  {
    seq(|specs|, i requires 0 <= i < |specs| => (specs[i].name, Extract(specs[i].source, info)))
  }

  function FlatEntries(specs: seq<FieldSpec>, section: map<string, Value>): (e: Entries<Value>)
    requires forall i :: 0 <= i < |specs| ==> specs[i].name in section
    ensures |e| == |specs|
    ensures forall i :: 0 <= i < |specs| ==> e[i] == (specs[i].flatName, section[specs[i].name])
  {
    seq(|specs|, i requires 0 <= i < |specs| => (specs[i].flatName, section[specs[i].name]))
  }

  /** The sub-map a table describes, e.g. `realtime_data`. */
  function SectionOf(specs: seq<FieldSpec>, info: Snapshot): (d: map<string, Value>)
    ensures forall i :: 0 <= i < |specs| ==> specs[i].name in d
  {
    var e := SectionEntries(specs, info);
    assert forall i :: 0 <= i < |specs| ==> e[i].0 == specs[i].name;
    Literal(e)
  }

  /** The flat copy a table describes, e.g. `flat_data`, read back out of the sub-map. */
  function FlatOf(specs: seq<FieldSpec>, info: Snapshot): map<string, Value> {
    Literal(FlatEntries(specs, SectionOf(specs, info)))
  }

  function Section(p: Profile, info: Snapshot): map<string, Value> {
    SectionOf(Table(p), info)
  }

  function Flat(p: Profile, info: Snapshot): map<string, Value> {
    FlatOf(Table(p), info)
  }

  function Names(specs: seq<FieldSpec>): (r: seq<string>)
    ensures |r| == |specs| && forall i :: 0 <= i < |specs| ==> r[i] == specs[i].name
  {
    seq(|specs|, i requires 0 <= i < |specs| => specs[i].name)
  }

  function FlatNames(specs: seq<FieldSpec>): (r: seq<string>)
    ensures |r| == |specs| && forall i :: 0 <= i < |specs| ==> r[i] == specs[i].flatName
  {
    seq(|specs|, i requires 0 <= i < |specs| => specs[i].flatName)
  }

  /** Output names, and flat names, are each listed once per table. */
  lemma TablesWellFormed(p: Profile)
    ensures Distinct(Names(Table(p))) && Distinct(FlatNames(Table(p)))
    ensures |Table(p)| == (if p == Monthly then 3 else 7)
  {
  }

  /**
    A sub-map has exactly one key per table row, holding that row's extracted
    value; a field with no value is present and holds `None`.
   */
  lemma SectionOfContents(specs: seq<FieldSpec>, info: Snapshot)
    requires Distinct(Names(specs))
    ensures forall k :: k in SectionOf(specs, info) <==> k in Names(specs)
    ensures |SectionOf(specs, info)| == |specs|
    ensures forall i :: 0 <= i < |specs| ==>
              SectionOf(specs, info)[specs[i].name] == Extract(specs[i].source, info)
  {
    var e := SectionEntries(specs, info);
    assert SectionOf(specs, info) == Literal(e);
    var names := Names(specs);
    assert forall i :: 0 <= i < |e| ==> e[i].0 == names[i];
    assert UniqueKeys(e);
    UniqueLiteral(e);
    assert forall k :: k in KeysOf(e) <==> k in names;
  }

  lemma FlatLiteralContents(specs: seq<FieldSpec>, section: map<string, Value>)
    requires forall i :: 0 <= i < |specs| ==> specs[i].name in section
    requires Distinct(FlatNames(specs))
    ensures forall k :: k in Literal(FlatEntries(specs, section)) <==> k in FlatNames(specs)
    ensures |Literal(FlatEntries(specs, section))| == |specs|
    ensures forall i :: 0 <= i < |specs| ==>
              Literal(FlatEntries(specs, section))[specs[i].flatName] == section[specs[i].name]
  {
    var e := FlatEntries(specs, section);
    var names := FlatNames(specs);
    assert forall i :: 0 <= i < |e| ==> e[i].0 == names[i];
    assert UniqueKeys(e);
    UniqueLiteral(e);
    assert forall k :: k in KeysOf(e) <==> k in names;
  }

  /** Every flat field equals its nested counterpart under the renamed key. */
  lemma FlatOfContents(specs: seq<FieldSpec>, info: Snapshot)
    requires Distinct(FlatNames(specs))
    ensures forall k :: k in FlatOf(specs, info) <==> k in FlatNames(specs)
    ensures |FlatOf(specs, info)| == |specs|
    ensures forall i :: 0 <= i < |specs| ==>
              FlatOf(specs, info)[specs[i].flatName] == SectionOf(specs, info)[specs[i].name]
  {
    FlatLiteralContents(specs, SectionOf(specs, info));
  }

  lemma SectionContents(p: Profile, info: Snapshot)
    ensures forall k :: k in Section(p, info) <==> k in Names(Table(p))
    ensures |Section(p, info)| == |Table(p)|
    ensures forall i :: 0 <= i < |Table(p)| ==>
              Section(p, info)[Table(p)[i].name] == Extract(Table(p)[i].source, info)
  {
    TablesWellFormed(p);
    SectionOfContents(Table(p), info);
  }

  lemma FlatContents(p: Profile, info: Snapshot)
    ensures forall k :: k in Flat(p, info) <==> k in FlatNames(Table(p))
    ensures |Flat(p, info)| == |Table(p)|
    ensures forall i :: 0 <= i < |Table(p)| ==>
              Flat(p, info)[Table(p)[i].flatName] == Section(p, info)[Table(p)[i].name]
  {
    TablesWellFormed(p);
    FlatOfContents(Table(p), info);
  }

  lemma SizesMatchTable(p: Profile, info: Snapshot)
    ensures |Section(p, info)| == |Table(p)| && |Flat(p, info)| == |Table(p)|
  {
    TablesWellFormed(p);
    SectionOfContents(Table(p), info);
    FlatOfContents(Table(p), info);
  }

  /** Seven realtime fields, seven daily fields, three monthly fields, whatever the snapshot holds. */
  lemma FieldCounts(info: Snapshot)
    ensures |Section(Realtime, info)| == 7 && |Flat(Realtime, info)| == 7
    ensures |Section(Daily, info)| == 7 && |Flat(Daily, info)| == 7
    ensures |Section(Monthly, info)| == 3 && |Flat(Monthly, info)| == 3
  {
    SizesMatchTable(Realtime, info);
    SizesMatchTable(Daily, info);
    SizesMatchTable(Monthly, info);
    TablesWellFormed(Realtime);
    TablesWellFormed(Daily);
    TablesWellFormed(Monthly);
  }

  /**
    Measured against a null-check fallback: a two-source field is the first
    present value of its two keys, except that a present zero primary gives
    way to the secondary as well. A one-source field is the snapshot's value,
    and `None` when the key is missing.
   */
  lemma ExtractSemantics(src: Source, info: Snapshot)
    ensures src.Direct? && src.key in info ==> Extract(src, info) == info[src.key]
    ensures src.Direct? && src.key !in info ==> Extract(src, info) == Null
    ensures src.Fallback? ==>
              Extract(src, info) ==
                if Get(info, src.primary).Zero? then Get(info, src.secondary)
                else Coalesce(Get(info, src.primary), Get(info, src.secondary))
  {
    if src.Fallback? {
      OrVersusCoalesce(Get(info, src.primary), Get(info, src.secondary));
    }
  }

  /** Row `i` of a table: its sub-map entry and its flat copy. */
  lemma Row(p: Profile, info: Snapshot, i: nat)
    requires i < |Table(p)|
    ensures Table(p)[i].name in Section(p, info) && Table(p)[i].flatName in Flat(p, info)
    ensures Section(p, info)[Table(p)[i].name] == Extract(Table(p)[i].source, info)
    ensures Flat(p, info)[Table(p)[i].flatName] == Section(p, info)[Table(p)[i].name]
  {
    TablesWellFormed(p);
    SectionOfContents(Table(p), info);
    FlatOfContents(Table(p), info);
    assert Table(p)[i].name in Names(Table(p));
    assert Table(p)[i].flatName in FlatNames(Table(p));
  }

  /** The realtime rows and their flat copies. */
  lemma RealtimeFields(info: Snapshot)
    ensures Lookup(Section(Realtime, info), "price") == Some(Or(Get(info, "currentPrice"), Get(info, "regularMarketPrice")))
    ensures Lookup(Section(Realtime, info), "volume") == Some(Or(Get(info, "volume"), Get(info, "regularMarketVolume")))
    ensures Lookup(Section(Realtime, info), "dayHigh") == Some(Or(Get(info, "dayHigh"), Get(info, "regularMarketDayHigh")))
    ensures Lookup(Section(Realtime, info), "dayLow") == Some(Or(Get(info, "dayLow"), Get(info, "regularMarketDayLow")))
    ensures Lookup(Section(Realtime, info), "open") == Some(Or(Get(info, "open"), Get(info, "regularMarketOpen")))
    ensures Lookup(Section(Realtime, info), "change") == Some(Get(info, "regularMarketChange"))
    ensures Lookup(Section(Realtime, info), "changePercent") == Some(Get(info, "regularMarketChangePercent"))
    ensures Lookup(Flat(Realtime, info), "Price") == Lookup(Section(Realtime, info), "price")
    ensures Lookup(Flat(Realtime, info), "Volume") == Lookup(Section(Realtime, info), "volume")
    ensures Lookup(Flat(Realtime, info), "DayHigh") == Lookup(Section(Realtime, info), "dayHigh")
    ensures Lookup(Flat(Realtime, info), "DayLow") == Lookup(Section(Realtime, info), "dayLow")
    ensures Lookup(Flat(Realtime, info), "Open") == Lookup(Section(Realtime, info), "open")
    ensures Lookup(Flat(Realtime, info), "Change") == Lookup(Section(Realtime, info), "change")
    ensures Lookup(Flat(Realtime, info), "ChangePercent") == Lookup(Section(Realtime, info), "changePercent")
  {
    Row(Realtime, info, 0);
    Row(Realtime, info, 1);
    Row(Realtime, info, 2);
    Row(Realtime, info, 3);
    Row(Realtime, info, 4);
    Row(Realtime, info, 5);
    Row(Realtime, info, 6);
  }

  /** The daily rows and their flat copies. */
  lemma DailyFields(info: Snapshot)
    ensures Lookup(Section(Daily, info), "marketCap") == Some(Get(info, "marketCap"))
    ensures Lookup(Section(Daily, info), "peRatio") == Some(Or(Get(info, "trailingPE"), Get(info, "forwardPE")))
    ensures Lookup(Section(Daily, info), "previousClose") == Some(Or(Get(info, "previousClose"), Get(info, "regularMarketPreviousClose")))
    ensures Lookup(Section(Daily, info), "week52High") == Some(Get(info, "fiftyTwoWeekHigh"))
    ensures Lookup(Section(Daily, info), "week52Low") == Some(Get(info, "fiftyTwoWeekLow"))
    ensures Lookup(Section(Daily, info), "beta") == Some(Get(info, "beta"))
    ensures Lookup(Section(Daily, info), "avgVolume") == Some(Or(Get(info, "averageVolume"), Get(info, "averageVolume10days")))
    ensures Lookup(Flat(Daily, info), "MarketCap") == Lookup(Section(Daily, info), "marketCap")
    ensures Lookup(Flat(Daily, info), "PE") == Lookup(Section(Daily, info), "peRatio")
    ensures Lookup(Flat(Daily, info), "PreviousClose") == Lookup(Section(Daily, info), "previousClose")
    ensures Lookup(Flat(Daily, info), "52WeekHigh") == Lookup(Section(Daily, info), "week52High")
    ensures Lookup(Flat(Daily, info), "52WeekLow") == Lookup(Section(Daily, info), "week52Low")
    ensures Lookup(Flat(Daily, info), "Beta") == Lookup(Section(Daily, info), "beta")
    ensures Lookup(Flat(Daily, info), "AvgVolume") == Lookup(Section(Daily, info), "avgVolume")
  {
    Row(Daily, info, 0);
    Row(Daily, info, 1);
    Row(Daily, info, 2);
    Row(Daily, info, 3);
    Row(Daily, info, 4);
    Row(Daily, info, 5);
    Row(Daily, info, 6);
  }

  /** The monthly (weekly-run) rows and their flat copies. */
  lemma MonthlyFields(info: Snapshot)
    ensures Lookup(Section(Monthly, info), "sharesOutstanding") == Some(Get(info, "sharesOutstanding"))
    ensures Lookup(Section(Monthly, info), "eps") == Some(Or(Get(info, "trailingEps"), Get(info, "forwardEps")))
    ensures Lookup(Section(Monthly, info), "float") == Some(Get(info, "floatShares"))
    ensures Lookup(Flat(Monthly, info), "SharesOutstanding") == Lookup(Section(Monthly, info), "sharesOutstanding")
    ensures Lookup(Flat(Monthly, info), "EPS") == Lookup(Section(Monthly, info), "eps")
    ensures Lookup(Flat(Monthly, info), "Float") == Lookup(Section(Monthly, info), "float")
  {
    Row(Monthly, info, 0);
    Row(Monthly, info, 1);
    Row(Monthly, info, 2);
  }

  /**
    A `currentPrice` that is missing, `None` or zero falls through to
    `regularMarketPrice`, whatever that holds (so `0 or None` is `None`).
   */
  lemma PriceFallsThrough(info: Snapshot)
    requires !Truthy(Get(info, "currentPrice"))
    ensures Lookup(Section(Realtime, info), "price") == Some(Get(info, "regularMarketPrice"))
  {
    RealtimeFields(info);
  }

  /** With `currentPrice` absent and a non-zero `regularMarketPrice`, the price is that value. */
  lemma PriceFallbackExample(info: Snapshot)
    requires "currentPrice" !in info && "regularMarketPrice" in info
    requires info["regularMarketPrice"] == Num(421)
    ensures Lookup(Section(Realtime, info), "price") == Some(Num(421))
  {
    PriceFallsThrough(info);
  }

  /** A present zero `regularMarketChange` is kept, not replaced by anything. */
  lemma ZeroChangeKept(info: Snapshot)
    requires "regularMarketChange" in info && info["regularMarketChange"] == Zero
    ensures Lookup(Section(Realtime, info), "change") == Some(Zero)
  {
    RealtimeFields(info);
  }

  /** A zero trailing P/E with no forward P/E gives `None`, not zero. */
  lemma ZeroPeFallsToNone(info: Snapshot)
    requires "trailingPE" in info && info["trailingPE"] == Zero && "forwardPE" !in info
    ensures Lookup(Section(Daily, info), "peRatio") == Some(Null)
  {
    DailyFields(info);
  }
}
