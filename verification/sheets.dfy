/** utils/google_sheets.py without the Google Sheets client: the cell
    (de)serialisation, the three record kinds and their row converters, and
    the bulk tier update over the values of the Outlets worksheet. The JSON
    codec and Python's float text conversions are foreign: they are the
    functions of a `Codec`, and the laws they are relied on to keep are
    stated by `ContainerLaw`, `IntLaw` and `FloatLaw`. */
module GoogleSheets {
  import opened Optional
  import opened Text

  /** A Python value as found in the records: `None`, a string, an int, a
      float, a list or a dict. */
  datatype Value =
    | Null
    | Str(s: string)
    | Int(i: int)
    | Float(r: real)
    | List(items: seq<Value>)
    | Dict(entries: seq<(string, Value)>)

  /** `json.dumps`, `json.loads` (None on `JSONDecodeError`), `str` of a
      float, `float(text)` (None on `ValueError`), the reals a double holds
      exactly, and `str` of a list or dict (its `repr`, which is not JSON:
      `['a']` where JSON has `["a"]`). */
  datatype Codec = Codec(
    dumps: Value -> string,
    loads: string -> Option<Value>,
    floatText: real -> string,
    parseFloat: string -> Option<real>,
    isFloat: real -> bool,
    repr: Value -> string)

  /** The largest magnitude below which every integer is a float exactly. */
  const MaxExactInt: int := 0x20_0000_0000_0000

  /** A value that a Python object can hold and JSON can carry: every float
      in it is a double, and no dict in it repeats a key. */
  ghost predicate Representable(v: Value, codec: Codec)
    decreases v
  {
    match v
    case Float(r) => codec.isFloat(r)
    case List(items) => forall k | 0 <= k < |items| :: Representable(items[k], codec)
    case Dict(entries) =>
      (forall k, l | 0 <= k < l < |entries| :: entries[k].0 != entries[l].0) &&
      forall k | 0 <= k < |entries| :: EntryRepresentable(entries[k], codec)
    case _ => true
  }

  ghost predicate EntryRepresentable(entry: (string, Value), codec: Codec)
    decreases entry
  {
    Representable(entry.1, codec)
  }

  /** What the model relies on of `json`: the JSON text of a representable
      list or dict is never empty and decodes back to it. */
  ghost predicate ContainerLaw(codec: Codec)
  {
    forall v: Value | (v.List? || v.Dict?) && Representable(v, codec) ::
      codec.dumps(v) != [] && codec.loads(codec.dumps(v)) == Some(v)
  }

  /** `float` reads the decimal text of an integer of float precision exactly. */
  ghost predicate IntLaw(codec: Codec)
  {
    forall n: int | -MaxExactInt <= n <= MaxExactInt :: codec.parseFloat(IntToString(n)) == Some(n as real)
  }

  /** `float` reads the text `str` gives of a double back exactly. */
  ghost predicate FloatLaw(codec: Codec)
  {
    forall r: real | codec.isFloat(r) :: codec.floatText(r) != [] && codec.parseFloat(codec.floatText(r)) == Some(r)
  }

  ghost predicate Lawful(codec: Codec)
  {
    ContainerLaw(codec) && IntLaw(codec) && FloatLaw(codec)
  }

  /** Python's `str(value)`. */
  function StrOf(v: Value, codec: Codec): string
  {
    match v
    case Null => "None"
    case Str(s) => s
    case Int(i) => IntToString(i)
    case Float(r) => codec.floatText(r)
    case _ => codec.repr(v)
  }

  /** `serialize_value(value)`. */
  function Serialize(v: Value, codec: Codec): string
  {
    if v.Null? then ""
    else if v.List? || v.Dict? then codec.dumps(v)
    else StrOf(v, codec)
  }

  /** The `expected_type` argument of `deserialize_value`. */
  datatype Expected = StringType | ListType | DictType | IntType | FloatType

  /** `int(x)` of a float: truncation toward zero. The result has the sign
      of `r` (or is 0) and lies less than 1 away from `r`, on the side of 0. */
  function Truncate(r: real): (t: int)
    ensures 0.0 <= r ==> 0 <= t && t as real <= r < t as real + 1.0
    ensures r < 0.0 ==> t <= 0 && r <= t as real < r + 1.0
  {
    if r >= 0.0 then r.Floor else -((-r).Floor)
  }

  /** `deserialize_value(value, expected_type)`. */
  function Deserialize(text: string, expected: Expected, codec: Codec): Value
  {
    if text == [] then
      match expected
      case ListType => List([])
      case DictType => Dict([])
      case IntType => Int(0)
      case FloatType => Float(0.0)
      case StringType => Null
    else
      match expected
      case ListType => (match codec.loads(text) case Some(v) => v case None => List([]))
      case DictType => (match codec.loads(text) case Some(v) => v case None => Dict([]))
      case IntType => (match codec.parseFloat(text) case Some(r) => Int(Truncate(r)) case None => Int(0))
      case FloatType => (match codec.parseFloat(text) case Some(r) => Float(r) case None => Float(0.0))
      case StringType => Str(text)
  }

  /** The type defaults: an empty cell reads as the empty list or dict, 0, 0.0
      or None, and text that does not decode reads as the empty container or 0. */
  lemma DeserializeDefaults(text: string, codec: Codec)
    ensures text == [] ==> (Deserialize(text, ListType, codec) == List([]) && Deserialize(text, DictType, codec) == Dict([]) &&
      Deserialize(text, IntType, codec) == Int(0) && Deserialize(text, FloatType, codec) == Float(0.0) &&
      Deserialize(text, StringType, codec) == Null)
    ensures codec.loads(text).None? ==> Deserialize(text, ListType, codec) == List([]) && Deserialize(text, DictType, codec) == Dict([])
    ensures codec.parseFloat(text).None? ==> Deserialize(text, IntType, codec) == Int(0) && Deserialize(text, FloatType, codec) == Float(0.0)
    ensures text != [] ==> Deserialize(text, StringType, codec) == Str(text)
  {
  }

  /** `int(float(text))` truncates toward zero, whichever the sign. */
  lemma TruncateExamples()
    ensures Truncate(2.7) == 2 && Truncate(-2.7) == -2
  {
  }

  /** A list or dict survives a trip through a cell unchanged. */
  lemma ContainerRoundTrip(v: Value, codec: Codec)
    requires ContainerLaw(codec)
    requires (v.List? || v.Dict?) && Representable(v, codec)
    ensures Deserialize(Serialize(v, codec), if v.List? then ListType else DictType, codec) == v
  {
    assert codec.dumps(v) != [] && codec.loads(codec.dumps(v)) == Some(v);
  }

  /** A missing list or dict (None) comes back as the empty container. */
  lemma NoneBecomesEmpty(codec: Codec)
    ensures Deserialize(Serialize(Null, codec), ListType, codec) == List([])
    ensures Deserialize(Serialize(Null, codec), DictType, codec) == Dict([])
  {
  }

  /** A string survives a trip through a cell; the empty string reads as None. */
  lemma StringRoundTrip(s: string, codec: Codec)
    ensures Deserialize(Serialize(Str(s), codec), StringType, codec) == if s == [] then Null else Str(s)
  {
  }

  /** An integer of float precision survives `str` then `int(float(...))`. */
  lemma IntRoundTrip(n: int, codec: Codec)
    requires IntLaw(codec)
    requires -MaxExactInt <= n <= MaxExactInt
    ensures Deserialize(StrOf(Int(n), codec), IntType, codec) == Int(n)
  {
    assert codec.parseFloat(IntToString(n)) == Some(n as real);
    assert Truncate(n as real) == n;
  }

  /** A double survives `str` then `float(...)`. */
  lemma FloatRoundTrip(r: real, codec: Codec)
    requires FloatLaw(codec) && codec.isFloat(r)
    ensures Deserialize(StrOf(Float(r), codec), FloatType, codec) == Float(r)
  {
    assert codec.floatText(r) != [] && codec.parseFloat(codec.floatText(r)) == Some(r);
  }

  const ClientsHeaders: seq<string> := ["id", "name", "industry", "key_messages", "competitors", "created_at", "updated_at"]
  const OutletsHeaders: seq<string> := ["id", "name", "domain", "tier", "type", "reach_estimate"]
  const HistoryHeaders: seq<string> := ["id", "headline", "outlet", "author", "client", "url", "total_score",
                                        "tier_scores", "detailed_scores", "full_analysis", "analyzed_at", "batch_id"]

  /** A client profile. */
  datatype Client = Client(id: string, name: string, industry: string, keyMessages: Value,
                           competitors: Value, createdAt: string, updatedAt: string)

  /** A media outlet. */
  datatype Outlet = Outlet(id: string, name: string, domain: string, tier: Value,
                           kind: string, reachEstimate: Value)

  /** A saved analysis. */
  datatype HistoryItem = HistoryItem(id: string, headline: string, outlet: string, author: string,
                                     client: string, url: string, totalScore: Value, tierScores: Value,
                                     detailedScores: Value, fullAnalysis: string, analyzedAt: string,
                                     batchId: string)

  /** `row` extended with empty cells to at least `n` cells. */
  function Padded(row: seq<string>, n: nat): (r: seq<string>)
    ensures |r| >= n && |r| >= |row|
    ensures r[..|row|] == row
    ensures forall i | |row| <= i < |r| :: r[i] == ""
  {
    if |row| < n then row + seq(n - |row|, _ => "") else row
  }

  /** `headers.index(name)`: the first position of `name`. */
  function HeaderIndex(headers: seq<string>, name: string): (i: nat)
    requires name in headers
    ensures i < |headers| && headers[i] == name && forall j | 0 <= j < i :: headers[j] != name
  {
    IndexFrom(headers, name, 0)
  }

  /** The first position of `name` at or after `start`. */
  function IndexFrom(headers: seq<string>, name: string, start: nat): (i: nat)
    requires start <= |headers| && name in headers
    requires forall j | 0 <= j < start :: headers[j] != name
    ensures i < |headers| && headers[i] == name && forall j | 0 <= j < i :: headers[j] != name
    decreases |headers| - start
  {
    if headers[start] == name then start else IndexFrom(headers, name, start + 1)
  }

  /** `row[headers.index(name)] if name in headers else ""`. */
  function Cell(row: seq<string>, headers: seq<string>, name: string): string
    requires |row| >= |headers|
  {
    if name in headers then row[HeaderIndex(headers, name)] else ""
  }

  /** The client a padded row holds under the given headers. */
  function ClientOfRow(row: seq<string>, headers: seq<string>, codec: Codec): Client
    requires |row| >= |headers|
  {
    Client(Cell(row, headers, "id"), Cell(row, headers, "name"), Cell(row, headers, "industry"),
           Deserialize(Cell(row, headers, "key_messages"), ListType, codec),
           Deserialize(Cell(row, headers, "competitors"), ListType, codec),
           Cell(row, headers, "created_at"), Cell(row, headers, "updated_at"))
  }

  /** The outlet a padded row holds under the given headers. */
  function OutletOfRow(row: seq<string>, headers: seq<string>, codec: Codec): Outlet
    requires |row| >= |headers|
  {
    Outlet(Cell(row, headers, "id"), Cell(row, headers, "name"), Cell(row, headers, "domain"),
           Deserialize(Cell(row, headers, "tier"), IntType, codec), Cell(row, headers, "type"),
           Deserialize(Cell(row, headers, "reach_estimate"), IntType, codec))
  }

  /** The history item a padded row holds under the given headers. */
  function HistoryOfRow(row: seq<string>, headers: seq<string>, codec: Codec): HistoryItem
    requires |row| >= |headers|
  {
    HistoryItem(Cell(row, headers, "id"), Cell(row, headers, "headline"), Cell(row, headers, "outlet"),
                Cell(row, headers, "author"), Cell(row, headers, "client"), Cell(row, headers, "url"),
                Deserialize(Cell(row, headers, "total_score"), FloatType, codec),
                Deserialize(Cell(row, headers, "tier_scores"), DictType, codec),
                Deserialize(Cell(row, headers, "detailed_scores"), DictType, codec),
                Cell(row, headers, "full_analysis"), Cell(row, headers, "analyzed_at"),
                Cell(row, headers, "batch_id"))
  }

  /** `client_to_row(client)`. */
  function ClientToRow(c: Client, codec: Codec): (row: seq<string>)
    ensures |row| == |ClientsHeaders|
  {
    [c.id, c.name, c.industry, Serialize(c.keyMessages, codec), Serialize(c.competitors, codec), c.createdAt, c.updatedAt]
  }

  /** `outlet_to_row(outlet)`: the numbers through `str`. */
  function OutletToRow(o: Outlet, codec: Codec): (row: seq<string>)
    ensures |row| == |OutletsHeaders|
  {
    [o.id, o.name, o.domain, StrOf(o.tier, codec), o.kind, StrOf(o.reachEstimate, codec)]
  }

  /** `history_to_row(item)`: the score through `str`, the score maps as JSON. */
  function HistoryToRow(h: HistoryItem, codec: Codec): (row: seq<string>)
    ensures |row| == |HistoryHeaders|
  {
    [h.id, h.headline, h.outlet, h.author, h.client, h.url, StrOf(h.totalScore, codec),
     Serialize(h.tierScores, codec), Serialize(h.detailedScores, codec), h.fullAnalysis, h.analyzedAt, h.batchId]
  }

  /** Each header constant lists its columns once, in the order of the row. */
  lemma HeaderPositions()
    ensures forall i | 0 <= i < |ClientsHeaders| :: HeaderIndex(ClientsHeaders, ClientsHeaders[i]) == i
    ensures forall i | 0 <= i < |OutletsHeaders| :: HeaderIndex(OutletsHeaders, OutletsHeaders[i]) == i
  {
    forall i | 0 <= i < |ClientsHeaders|
      ensures HeaderIndex(ClientsHeaders, ClientsHeaders[i]) == i
    {
      assert forall j | 0 <= j < i :: ClientsHeaders[j] != ClientsHeaders[i];
    }
    forall i | 0 <= i < |OutletsHeaders|
      ensures HeaderIndex(OutletsHeaders, OutletsHeaders[i]) == i
    {
      assert forall j | 0 <= j < i :: OutletsHeaders[j] != OutletsHeaders[i];
    }
  }

  /** The history header lists its columns once, in the order of the row. */
  lemma HistoryHeaderPositions()
    ensures forall i | 0 <= i < |HistoryHeaders| :: HeaderIndex(HistoryHeaders, HistoryHeaders[i]) == i
  {
    forall i | 0 <= i < |HistoryHeaders|
      ensures HeaderIndex(HistoryHeaders, HistoryHeaders[i]) == i
    {
      assert forall j | 0 <= j < i :: HistoryHeaders[j] != HistoryHeaders[i];
    }
  }

  /** Under the clients' headers each field is read from its own column. */
  lemma ClientCells(row: seq<string>)
    requires |row| >= |ClientsHeaders|
    ensures Cell(row, ClientsHeaders, "id") == row[0] && Cell(row, ClientsHeaders, "name") == row[1]
    ensures Cell(row, ClientsHeaders, "industry") == row[2] && Cell(row, ClientsHeaders, "key_messages") == row[3]
    ensures Cell(row, ClientsHeaders, "competitors") == row[4] && Cell(row, ClientsHeaders, "created_at") == row[5]
    ensures Cell(row, ClientsHeaders, "updated_at") == row[6]
  {
    HeaderPositions();
    CellsByPosition(row, ClientsHeaders);
    assert Cell(row, ClientsHeaders, ClientsHeaders[0]) == row[0];
    assert Cell(row, ClientsHeaders, ClientsHeaders[1]) == row[1];
    assert Cell(row, ClientsHeaders, ClientsHeaders[2]) == row[2];
    assert Cell(row, ClientsHeaders, ClientsHeaders[3]) == row[3];
    assert Cell(row, ClientsHeaders, ClientsHeaders[4]) == row[4];
    assert Cell(row, ClientsHeaders, ClientsHeaders[5]) == row[5];
    assert Cell(row, ClientsHeaders, ClientsHeaders[6]) == row[6];
  }

  /** Under the outlets' headers each field is read from its own column. */
  lemma OutletCells(row: seq<string>)
    requires |row| >= |OutletsHeaders|
    ensures Cell(row, OutletsHeaders, "id") == row[0] && Cell(row, OutletsHeaders, "name") == row[1]
    ensures Cell(row, OutletsHeaders, "domain") == row[2] && Cell(row, OutletsHeaders, "tier") == row[3]
    ensures Cell(row, OutletsHeaders, "type") == row[4] && Cell(row, OutletsHeaders, "reach_estimate") == row[5]
  {
    HeaderPositions();
    CellsByPosition(row, OutletsHeaders);
    assert Cell(row, OutletsHeaders, OutletsHeaders[0]) == row[0];
    assert Cell(row, OutletsHeaders, OutletsHeaders[1]) == row[1];
    assert Cell(row, OutletsHeaders, OutletsHeaders[2]) == row[2];
    assert Cell(row, OutletsHeaders, OutletsHeaders[3]) == row[3];
    assert Cell(row, OutletsHeaders, OutletsHeaders[4]) == row[4];
    assert Cell(row, OutletsHeaders, OutletsHeaders[5]) == row[5];
  }

  /** Under the history headers the id, headline and outlet are read from their own columns. */
  lemma HistoryCellsNames(row: seq<string>)
    requires |row| >= |HistoryHeaders|
    ensures Cell(row, HistoryHeaders, "id") == row[0]
    ensures Cell(row, HistoryHeaders, "headline") == row[1]
    ensures Cell(row, HistoryHeaders, "outlet") == row[2]
  {
    HistoryHeaderPositions();
    CellsByPosition(row, HistoryHeaders);
    assert Cell(row, HistoryHeaders, HistoryHeaders[0]) == row[0];
    assert Cell(row, HistoryHeaders, HistoryHeaders[1]) == row[1];
    assert Cell(row, HistoryHeaders, HistoryHeaders[2]) == row[2];
  }

  /** Under the history headers the author, client and url are read from their own columns. */
  lemma HistoryCellsPeople(row: seq<string>)
    requires |row| >= |HistoryHeaders|
    ensures Cell(row, HistoryHeaders, "author") == row[3]
    ensures Cell(row, HistoryHeaders, "client") == row[4]
    ensures Cell(row, HistoryHeaders, "url") == row[5]
  {
    HistoryHeaderPositions();
    CellsByPosition(row, HistoryHeaders);
    assert Cell(row, HistoryHeaders, HistoryHeaders[3]) == row[3];
    assert Cell(row, HistoryHeaders, HistoryHeaders[4]) == row[4];
    assert Cell(row, HistoryHeaders, HistoryHeaders[5]) == row[5];
  }

  /** Under the history headers the score and the score maps are read from their own columns. */
  lemma HistoryCellsScores(row: seq<string>)
    requires |row| >= |HistoryHeaders|
    ensures Cell(row, HistoryHeaders, "total_score") == row[6]
    ensures Cell(row, HistoryHeaders, "tier_scores") == row[7]
    ensures Cell(row, HistoryHeaders, "detailed_scores") == row[8]
  {
    HistoryHeaderPositions();
    CellsByPosition(row, HistoryHeaders);
    assert Cell(row, HistoryHeaders, HistoryHeaders[6]) == row[6];
    assert Cell(row, HistoryHeaders, HistoryHeaders[7]) == row[7];
    assert Cell(row, HistoryHeaders, HistoryHeaders[8]) == row[8];
  }

  /** Under the history headers the analysis, its time and the batch id are read from their own columns. */
  lemma HistoryCellsRest(row: seq<string>)
    requires |row| >= |HistoryHeaders|
    ensures Cell(row, HistoryHeaders, "full_analysis") == row[9]
    ensures Cell(row, HistoryHeaders, "analyzed_at") == row[10]
    ensures Cell(row, HistoryHeaders, "batch_id") == row[11]
  {
    HistoryHeaderPositions();
    CellsByPosition(row, HistoryHeaders);
    assert Cell(row, HistoryHeaders, HistoryHeaders[9]) == row[9];
    assert Cell(row, HistoryHeaders, HistoryHeaders[10]) == row[10];
    assert Cell(row, HistoryHeaders, HistoryHeaders[11]) == row[11];
  }

  /** A client written with `client_to_row` reads back with its string fields
      unchanged, and its two lists unchanged when they are representable lists. */
  lemma ClientRoundTrip(c: Client, codec: Codec)
    ensures var back := ClientOfRow(ClientToRow(c, codec), ClientsHeaders, codec);
      back.id == c.id && back.name == c.name && back.industry == c.industry &&
      back.createdAt == c.createdAt && back.updatedAt == c.updatedAt
    ensures (ContainerLaw(codec) && c.keyMessages.List? && c.competitors.List? &&
             Representable(c.keyMessages, codec) && Representable(c.competitors, codec)) ==>
      ClientOfRow(ClientToRow(c, codec), ClientsHeaders, codec) == c
  {
    ClientCells(ClientToRow(c, codec));
    if ContainerLaw(codec) && c.keyMessages.List? && c.competitors.List? &&
       Representable(c.keyMessages, codec) && Representable(c.competitors, codec) {
      ContainerRoundTrip(c.keyMessages, codec);
      ContainerRoundTrip(c.competitors, codec);
    }
  }

  /** An outlet written with `outlet_to_row` reads back with its string
      fields unchanged, and its tier and reach unchanged when they are
      integers of float precision. */
  lemma OutletRoundTrip(o: Outlet, codec: Codec)
    ensures var back := OutletOfRow(OutletToRow(o, codec), OutletsHeaders, codec);
      back.id == o.id && back.name == o.name && back.domain == o.domain && back.kind == o.kind
    ensures (IntLaw(codec) && o.tier.Int? && o.reachEstimate.Int? &&
      -MaxExactInt <= o.tier.i <= MaxExactInt && -MaxExactInt <= o.reachEstimate.i <= MaxExactInt) ==>
      OutletOfRow(OutletToRow(o, codec), OutletsHeaders, codec) == o
  {
    OutletCells(OutletToRow(o, codec));
    if IntLaw(codec) && o.tier.Int? && o.reachEstimate.Int? &&
       -MaxExactInt <= o.tier.i <= MaxExactInt && -MaxExactInt <= o.reachEstimate.i <= MaxExactInt {
      IntRoundTrip(o.tier.i, codec);
      IntRoundTrip(o.reachEstimate.i, codec);
    }
  }

  /** Under headers without repeats, each column's cell is read from its own position. */
  lemma CellsByPosition(row: seq<string>, headers: seq<string>)
    requires |row| >= |headers|
    requires forall i | 0 <= i < |headers| :: HeaderIndex(headers, headers[i]) == i
    ensures forall i | 0 <= i < |headers| :: Cell(row, headers, headers[i]) == row[i]
  {
  }

  /** A history item written with `history_to_row` reads back with its
      string fields unchanged. */
  lemma HistoryStringsRoundTrip(h: HistoryItem, codec: Codec)
    ensures var back := HistoryOfRow(HistoryToRow(h, codec), HistoryHeaders, codec);
      back.id == h.id && back.headline == h.headline && back.outlet == h.outlet && back.author == h.author &&
      back.client == h.client && back.url == h.url && back.fullAnalysis == h.fullAnalysis &&
      back.analyzedAt == h.analyzedAt && back.batchId == h.batchId
  {
    var row := HistoryToRow(h, codec);
    HistoryCellsNames(row);
    HistoryCellsPeople(row);
    HistoryCellsRest(row);
  }

  /** The score maps of a history item read back unchanged when they are
      representable dicts. */
  lemma HistoryMapsRoundTrip(h: HistoryItem, codec: Codec)
    requires ContainerLaw(codec)
    requires h.tierScores.Dict? && h.detailedScores.Dict?
    requires Representable(h.tierScores, codec) && Representable(h.detailedScores, codec)
    ensures var back := HistoryOfRow(HistoryToRow(h, codec), HistoryHeaders, codec);
      back.tierScores == h.tierScores && back.detailedScores == h.detailedScores
  {
    HistoryCellsScores(HistoryToRow(h, codec));
    ContainerRoundTrip(h.tierScores, codec);
    ContainerRoundTrip(h.detailedScores, codec);
  }

  /** A history item reads back unchanged when its score is a double and its
      score maps are representable dicts. */
  lemma HistoryRoundTrip(h: HistoryItem, codec: Codec)
    requires Lawful(codec)
    requires h.totalScore.Float? && h.tierScores.Dict? && h.detailedScores.Dict?
    requires codec.isFloat(h.totalScore.r)
    requires Representable(h.tierScores, codec) && Representable(h.detailedScores, codec)
    ensures HistoryOfRow(HistoryToRow(h, codec), HistoryHeaders, codec) == h
  {
    HistoryStringsRoundTrip(h, codec);
    HistoryMapsRoundTrip(h, codec);
    HistoryScoreRoundTrip(h, codec);
    HistoryItemsEqual(HistoryOfRow(HistoryToRow(h, codec), HistoryHeaders, codec), h);
  }

  /** The total score of a history item reads back unchanged when it is a double. */
  lemma HistoryScoreRoundTrip(h: HistoryItem, codec: Codec)
    requires FloatLaw(codec)
    requires h.totalScore.Float? && codec.isFloat(h.totalScore.r)
    ensures HistoryOfRow(HistoryToRow(h, codec), HistoryHeaders, codec).totalScore == h.totalScore
  {
    HistoryCellsScores(HistoryToRow(h, codec));
    FloatRoundTrip(h.totalScore.r, codec);
  }

  /** Two history items with the same fields are the same item. */
  lemma HistoryItemsEqual(a: HistoryItem, b: HistoryItem)
    requires a.id == b.id && a.headline == b.headline && a.outlet == b.outlet && a.author == b.author
    requires a.client == b.client && a.url == b.url && a.totalScore == b.totalScore && a.tierScores == b.tierScores
    requires a.detailedScores == b.detailedScores && a.fullAnalysis == b.fullAnalysis
    requires a.analyzedAt == b.analyzedAt && a.batchId == b.batchId
    ensures a == b
  {
  }

  /** A row read under headers that lack a column gets that field's default. */
  lemma MissingColumnDefaults(row: seq<string>, headers: seq<string>, codec: Codec)
    requires |row| >= |headers|
    requires "id" !in headers && "key_messages" !in headers && "tier" !in headers
    ensures ClientOfRow(row, headers, codec).id == ""
    ensures ClientOfRow(row, headers, codec).keyMessages == List([])
    ensures OutletOfRow(row, headers, codec).tier == Int(0)
  {
  }

  /** A list of cells that the row converters extend in place. */
  class Row {
    var cells: seq<string>

    constructor (cells: seq<string>)
      ensures this.cells == cells
    {
      this.cells := cells;
    }

    /** `row.extend([""] * (n - len(row)))` when the row is shorter than `n`. */
    method PadTo(n: nat)
      modifies this
      ensures cells == Padded(old(cells), n)
    {
      if |cells| < n {
        cells := cells + seq(n - |cells|, _ => "");
      }
    }
  }

  /** `row_to_client(row, headers)`: pads the caller's row, then reads it. */
  method RowToClient(row: Row, headers: seq<string>, codec: Codec) returns (c: Client)
    modifies row
    ensures row.cells == Padded(old(row.cells), |headers|)
    ensures c == ClientOfRow(row.cells, headers, codec)
  {
    row.PadTo(|headers|);
    c := ClientOfRow(row.cells, headers, codec);
  }

  /** `row_to_outlet(row, headers)`. */
  method RowToOutlet(row: Row, headers: seq<string>, codec: Codec) returns (o: Outlet)
    modifies row
    ensures row.cells == Padded(old(row.cells), |headers|)
    ensures o == OutletOfRow(row.cells, headers, codec)
  {
    row.PadTo(|headers|);
    o := OutletOfRow(row.cells, headers, codec);
  }

  /** `row_to_history(row, headers)`. */
  method RowToHistory(row: Row, headers: seq<string>, codec: Codec) returns (h: HistoryItem)
    modifies row
    ensures row.cells == Padded(old(row.cells), |headers|)
    ensures h == HistoryOfRow(row.cells, headers, codec)
  {
    row.PadTo(|headers|);
    h := HistoryOfRow(row.cells, headers, codec);
  }

  /** Whether a data row is one `bulk_update_outlet_tiers_in_sheets` updates. */
  predicate Selected(row: seq<string>, idIdx: nat, outletIds: seq<string>)
  {
    |row| > idIdx && row[idIdx] in outletIds
  }

  /** The row after `update_cell` writes `value` into column `col`; a
      short row grows with empty cells up to it. */
  function WithCell(row: seq<string>, col: nat, value: string): (r: seq<string>)
    ensures |r| == if col < |row| then |row| else col + 1
    ensures r[col] == value
    ensures forall j | 0 <= j < |row| && j != col :: r[j] == row[j]
  {
    if col < |row| then row[col := value] else Padded(row, col) + [value]
  }

  /** The data rows after the tier update. */
  function UpdatedRows(rows: seq<seq<string>>, idIdx: nat, tierIdx: nat, outletIds: seq<string>, tierText: string): (r: seq<seq<string>>)
    ensures |r| == |rows|
  {
    if rows == [] then []
    else
      var row := rows[|rows| - 1];
      UpdatedRows(rows[..|rows| - 1], idIdx, tierIdx, outletIds, tierText) +
      [if Selected(row, idIdx, outletIds) then WithCell(row, tierIdx, tierText) else row]
  }

  /** How many data rows are selected. */
  function SelectedCount(rows: seq<seq<string>>, idIdx: nat, outletIds: seq<string>): (n: nat)
    ensures n <= |rows|
  {
    if rows == [] then 0
    else SelectedCount(rows[..|rows| - 1], idIdx, outletIds) + (if Selected(rows[|rows| - 1], idIdx, outletIds) then 1 else 0)
  }

  /** The row after the done ones, replaced by its update. */
  lemma ReplaceNext(headers: seq<string>, done: seq<seq<string>>, rest: seq<seq<string>>, next: seq<string>)
    requires rest != []
    ensures ([headers] + done + rest)[|done| + 1 := next] == [headers] + (done + [next]) + rest[1..]
    ensures ([headers] + done + rest)[|done| + 1] == rest[0]
  {
  }

  /** One pass of the update loop: writing row `i`'s update over the
      worksheet extends the updated prefix by that row. */
  lemma UpdateStep(headers: seq<string>, rows: seq<seq<string>>, i: nat, idIdx: nat, tierIdx: nat, outletIds: seq<string>, tierText: string)
    requires i < |rows|
    ensures var next := if Selected(rows[i], idIdx, outletIds) then WithCell(rows[i], tierIdx, tierText) else rows[i];
      var before := [headers] + UpdatedRows(rows[..i], idIdx, tierIdx, outletIds, tierText) + rows[i..];
      before[i + 1] == rows[i] &&
      before[i + 1 := next] == [headers] + UpdatedRows(rows[..i + 1], idIdx, tierIdx, outletIds, tierText) + rows[i + 1..] &&
      SelectedCount(rows[..i + 1], idIdx, outletIds) ==
        SelectedCount(rows[..i], idIdx, outletIds) + (if Selected(rows[i], idIdx, outletIds) then 1 else 0)
  {
    var next := if Selected(rows[i], idIdx, outletIds) then WithCell(rows[i], tierIdx, tierText) else rows[i];
    var done := UpdatedRows(rows[..i], idIdx, tierIdx, outletIds, tierText);
    assert rows[..i + 1][..i] == rows[..i];
    assert rows[..i + 1][i] == rows[i];
    ReplaceNext(headers, done, rows[i..], next);
    assert rows[i..][1..] == rows[i + 1..];
  }

  /** Row by row: a selected row gets its tier cell written, any other row is unchanged. */
  lemma {:induction false} UpdatedRowsPointwise(rows: seq<seq<string>>, idIdx: nat, tierIdx: nat, outletIds: seq<string>, tierText: string)
    ensures var r := UpdatedRows(rows, idIdx, tierIdx, outletIds, tierText);
      forall k | 0 <= k < |rows| ::
        r[k] == if Selected(rows[k], idIdx, outletIds) then WithCell(rows[k], tierIdx, tierText) else rows[k]
    decreases |rows|
  {
    if rows != [] {
      var init := rows[..|rows| - 1];
      UpdatedRowsPointwise(init, idIdx, tierIdx, outletIds, tierText);
      assert forall k | 0 <= k < |init| :: init[k] == rows[k];
    }
  }

  /** Running the update a second time changes nothing more: the tier cell is
      not the id cell, so the same rows are selected, and they already hold
      the new tier. */
  lemma UpdateIdempotent(rows: seq<seq<string>>, idIdx: nat, tierIdx: nat, outletIds: seq<string>, tierText: string)
    requires idIdx != tierIdx
    ensures var once := UpdatedRows(rows, idIdx, tierIdx, outletIds, tierText);
      UpdatedRows(once, idIdx, tierIdx, outletIds, tierText) == once
  {
    var once := UpdatedRows(rows, idIdx, tierIdx, outletIds, tierText);
    var twice := UpdatedRows(once, idIdx, tierIdx, outletIds, tierText);
    UpdatedRowsPointwise(rows, idIdx, tierIdx, outletIds, tierText);
    UpdatedRowsPointwise(once, idIdx, tierIdx, outletIds, tierText);
    forall k | 0 <= k < |rows|
      ensures twice[k] == once[k]
    {
      if Selected(rows[k], idIdx, outletIds) {
        var w := WithCell(rows[k], tierIdx, tierText);
        assert once[k] == w;
        assert w[idIdx] == rows[k][idIdx];
        assert Selected(w, idIdx, outletIds);
        WithCellAgain(w, tierIdx, tierText);
      }
    }
  }

  /** Writing the value a cell already holds leaves the row as it is. */
  lemma WithCellAgain(row: seq<string>, col: nat, value: string)
    requires col < |row| && row[col] == value
    ensures WithCell(row, col, value) == row
  {
    assert row[col := value] == row;
  }


  /** The values of the Outlets worksheet: the header row, then the data rows. */
  class Worksheet {
    var values: seq<seq<string>>

    constructor (values: seq<seq<string>>)
      ensures this.values == values
    {
      this.values := values;
    }

    /** Whether the bulk update can run: a header row with "id" and "tier"
        (otherwise the lookup raises and the function returns 0). */
    predicate Updatable()
      reads this
    {
      |values| >= 1 && "id" in values[0] && "tier" in values[0]
    }

    /** The worksheet's values after the bulk tier update. */
    function TierUpdated(outletIds: seq<string>, newTier: int): (r: seq<seq<string>>)
      reads this
      ensures |r| == |values|
    {
      if !Updatable() then values
      else
        var headers := values[0];
        [headers] + UpdatedRows(values[1..], HeaderIndex(headers, "id"), HeaderIndex(headers, "tier"), outletIds, IntToString(newTier))
    }

    /** The number the bulk update returns. */
    function UpdatedCount(outletIds: seq<string>): nat
      reads this
    {
      if !Updatable() then 0
      else SelectedCount(values[1..], HeaderIndex(values[0], "id"), outletIds)
    }

    /** `bulk_update_outlet_tiers_in_sheets(outlet_ids, new_tier)`. */
    method BulkUpdateOutletTiers(outletIds: seq<string>, newTier: int) returns (count: nat)
      modifies this
      ensures values == old(TierUpdated(outletIds, newTier))
      ensures count == old(UpdatedCount(outletIds))
    {
      if !Updatable() {
        return 0;
      }
      var allValues := values;
      var headers := allValues[0];
      var idIdx := HeaderIndex(headers, "id");
      var tierIdx := HeaderIndex(headers, "tier");
      var tierText := IntToString(newTier);
      var rows := allValues[1..];
      count := 0;
      for i := 0 to |rows|
        invariant values == [headers] + UpdatedRows(rows[..i], idIdx, tierIdx, outletIds, tierText) + rows[i..]
        invariant count == SelectedCount(rows[..i], idIdx, outletIds)
      {
        UpdateStep(headers, rows, i, idIdx, tierIdx, outletIds, tierText);
        var row := rows[i];
        if |row| > idIdx && row[idIdx] in outletIds {
          values := values[i + 1 := WithCell(values[i + 1], tierIdx, tierText)];
          count := count + 1;
        }
      }
      assert rows[..|rows|] == rows;
    }
  }
}
