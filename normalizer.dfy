/** The search-result normaliser shared by the three search tools: build the
    request, call the search provider, take the provider's results array, cap
    it, turn each element into a small record tagged with the platform, and
    replace the whole answer by `{"error": message}` as soon as anything
    raises. One `Config` value describes a tool; `Normalize` is the
    specification and `Run` the loop that implements it. */
module Normalizer {
  import opened Json

  /** Titles of image results are cut to this many characters. */
  const TitleLimit: nat := 100

  /** One output field: `outKey` receives `item.get(inKey, "")`, sliced to
      `TitleLimit` when `truncate` is set. */
  datatype FieldRule = FieldRule(outKey: string, inKey: string, truncate: bool)

  /** Everything that distinguishes one search tool from another. The query
      sent is `queryPrefix + query`; `extraParams` are the request parameters
      beyond engine, query and key. */
  datatype Config = Config(
    engine: string,
    queryPrefix: string,
    extraParams: map<string, Json>,
    resultsKey: string,
    cap: nat,
    rules: seq<FieldRule>,
    platform: string)

  /** The search client: given the request parameters it returns the decoded
      result document, or raises. */
  type Provider = map<string, Json> -> Raises<map<string, Json>>

  /** `os.getenv("SERPAPI_KEY")`: the key, or None when it is unset. */
  function ApiKeyValue(apiKey: Option<string>): Json
  {
    match apiKey
    case Some(k) => Str(k)
    case None => Null
  }

  /** The request parameters a tool sends for `query`. */
  function RequestParams(cfg: Config, query: string, apiKey: Option<string>): (p: map<string, Json>)
    ensures "engine" in p && "q" in p && "api_key" in p
    ensures cfg.extraParams.Keys !! {"engine", "q", "api_key"} ==>
      p.Keys == cfg.extraParams.Keys + {"engine", "q", "api_key"} &&
      p["engine"] == Str(cfg.engine) && p["q"] == Str(cfg.queryPrefix + query) &&
      p["api_key"] == ApiKeyValue(apiKey) &&
      forall k :: k in cfg.extraParams ==> p[k] == cfg.extraParams[k]
  {
    cfg.extraParams + map["engine" := Str(cfg.engine), "q" := Str(cfg.queryPrefix + query), "api_key" := ApiKeyValue(apiKey)]
  }

  /** The output of a tool that caught an exception: `{"error": message}`. */
  function ErrorObject(message: string): Json
  {
    Obj(map["error" := Str(message)])
  }

  /** A one-key object whose single key is "error" and whose value is a string. */
  predicate IsErrorObject(v: Json)
  {
    v.Obj? && v.fields.Keys == {"error"} && v.fields["error"].Str?
  }

  /** The output keys the rules write. */
  function RuleKeys(rules: seq<FieldRule>): set<string>
  {
    if rules == [] then {} else {rules[0].outKey} + RuleKeys(rules[1..])
  }

  /** Evaluate the values of a record literal left to right, adding each to
      `acc`; the first value whose evaluation raises ends the record. */
  function BuildFields(rules: seq<FieldRule>, src: map<string, Json>, acc: map<string, Json>): Raises<map<string, Json>>
    decreases |rules|
  {
    if rules == [] then Ok(acc)
    else
      var v := Get(src, rules[0].inKey, Str(""));
      var cell := if rules[0].truncate then Slice(v, TitleLimit) else Ok(v);
      match cell
      case Raised(m) => Raised(m)
      case Ok(x) => BuildFields(rules[1..], src, acc[rules[0].outKey := x])
  }

  /** The record one results element becomes; the platform tag is the last key. */
  function MakeRecord(cfg: Config, item: Json): Raises<Json>
  {
    if !item.Obj? then Raised(NoGetMessage(item))
    else
      match BuildFields(cfg.rules, item.fields, map[])
      case Raised(m) => Raised(m)
      case Ok(f) => Ok(Obj(f["platform" := Str(cfg.platform)]))
  }

  /** The records of all elements in order, or the first exception raised. */
  function MapRecords(cfg: Config, items: seq<Json>): Raises<seq<Json>>
    decreases |items|
  {
    if items == [] then Ok([])
    else
      match MakeRecord(cfg, items[0])
      case Raised(m) => Raised(m)
      case Ok(r) =>
        match MapRecords(cfg, items[1..])
        case Raised(m) => Raised(m)
        case Ok(rs) => Ok([r] + rs)
  }

  /** What a tool returns, before `json.dumps`, once the provider has answered
      with `outcome`: a list of records, or the error object. */
  function Normalize(cfg: Config, outcome: Raises<map<string, Json>>): Json
  {
    match outcome
    case Raised(m) => ErrorObject(m)
    case Ok(results) =>
      if cfg.resultsKey !in results then Arr([])
      else
        match SliceItems(results[cfg.resultsKey], cfg.cap)
        case Raised(m) => ErrorObject(m)
        case Ok(items) =>
          match MapRecords(cfg, items)
          case Raised(m) => ErrorObject(m)
          case Ok(records) => Arr(records)
  }

  /** A tool's `_run`: build the parameters, call the provider, and append one
      record per element of the capped results array, all inside the
      try/except that turns any exception into the error object. */
  method Run(cfg: Config, query: string, apiKey: Option<string>, provider: Provider) returns (out: Json)
    ensures out == Normalize(cfg, provider(RequestParams(cfg, query, apiKey)))
  {
    var params := RequestParams(cfg, query, apiKey);
    var outcome := provider(params);
    if outcome.Raised? {
      return ErrorObject(outcome.message);
    }
    var results := outcome.value;
    var images: seq<Json> := [];
    if cfg.resultsKey in results {
      var sliced := SliceItems(results[cfg.resultsKey], cfg.cap);
      if sliced.Raised? {
        return ErrorObject(sliced.message);
      }
      var items := sliced.value;
      var i := 0;
      while i < |items|
        invariant 0 <= i <= |items|
        invariant |images| == i
        invariant forall j :: 0 <= j < i ==> MakeRecord(cfg, items[j]) == Ok(images[j])
      {
        var record := MakeRecord(cfg, items[i]);
        if record.Raised? {
          MapRecordsFirstRaise(cfg, items, i);
          return ErrorObject(record.message);
        }
        images := images + [record.value];
        i := i + 1;
      }
      MapRecordsOk(cfg, items);
    }
    return Arr(images);
  }

  /** MapRecords succeeds exactly when every element makes a record, and then
      record i is the one element i makes: same length, same order, nothing
      dropped, sorted or merged. */
  lemma {:induction false} MapRecordsOk(cfg: Config, items: seq<Json>)
    ensures MapRecords(cfg, items).Ok? <==> forall i :: 0 <= i < |items| ==> MakeRecord(cfg, items[i]).Ok?
    ensures MapRecords(cfg, items).Ok? ==>
      |MapRecords(cfg, items).value| == |items| &&
      forall i :: 0 <= i < |items| ==> MakeRecord(cfg, items[i]) == Ok(MapRecords(cfg, items).value[i])
    decreases |items|
  {
    if items != [] {
      MapRecordsOk(cfg, items[1..]);
      assert forall i :: 1 <= i < |items| ==> items[i] == items[1..][i - 1];
    }
  }

  /** When element k is the first that raises, MapRecords raises its exception. */
  lemma {:induction false} MapRecordsFirstRaise(cfg: Config, items: seq<Json>, k: nat)
    requires k < |items|
    requires forall j :: 0 <= j < k ==> MakeRecord(cfg, items[j]).Ok?
    requires MakeRecord(cfg, items[k]).Raised?
    ensures MapRecords(cfg, items) == Raised(MakeRecord(cfg, items[k]).message)
    decreases k
  {
    if k > 0 {
      assert forall j :: 0 <= j < k - 1 ==> items[1..][j] == items[j + 1];
      MapRecordsFirstRaise(cfg, items[1..], k - 1);
    }
  }

  /** BuildFields writes exactly the keys of the rules on top of `acc`. */
  lemma {:induction false} BuildFieldsKeys(rules: seq<FieldRule>, src: map<string, Json>, acc: map<string, Json>)
    ensures BuildFields(rules, src, acc).Ok? ==> BuildFields(rules, src, acc).value.Keys == acc.Keys + RuleKeys(rules)
    decreases |rules|
  {
    if rules != [] {
      var v := Get(src, rules[0].inKey, Str(""));
      var cell := if rules[0].truncate then Slice(v, TitleLimit) else Ok(v);
      if cell.Ok? {
        BuildFieldsKeys(rules[1..], src, acc[rules[0].outKey := cell.value]);
      }
    }
  }

  /** Every record is a dict with exactly the rules' keys plus "platform",
      and its "platform" is the tool's tag. */
  lemma RecordShape(cfg: Config, item: Json)
    ensures MakeRecord(cfg, item).Ok? ==>
      var r := MakeRecord(cfg, item).value;
      r.Obj? && r.fields.Keys == RuleKeys(cfg.rules) + {"platform"} &&
      r.fields["platform"] == Str(cfg.platform)
  {
    if item.Obj? {
      BuildFieldsKeys(cfg.rules, item.fields, map[]);
    }
  }

  /** The output is always either a list of records or a one-key error
      object, never both: a list is never cut short by an exception. */
  lemma OutputShape(cfg: Config, outcome: Raises<map<string, Json>>)
    ensures Normalize(cfg, outcome).Arr? || IsErrorObject(Normalize(cfg, outcome))
    ensures outcome.Raised? ==> Normalize(cfg, outcome) == ErrorObject(outcome.message)
  {
  }

  /** A list output never holds more than `cap` records, and every record
      carries the tool's platform tag and exactly its keys. */
  lemma BatchInvariant(cfg: Config, outcome: Raises<map<string, Json>>)
    ensures var out := Normalize(cfg, outcome);
      out.Arr? ==>
        |out.items| <= cfg.cap &&
        forall i :: 0 <= i < |out.items| ==>
          out.items[i].Obj? && out.items[i].fields.Keys == RuleKeys(cfg.rules) + {"platform"} &&
          out.items[i].fields["platform"] == Str(cfg.platform)
  {
    if outcome.Ok? && cfg.resultsKey in outcome.value {
      var sliced := SliceItems(outcome.value[cfg.resultsKey], cfg.cap);
      SliceItemsRaises(outcome.value[cfg.resultsKey], cfg.cap);
      if sliced.Ok? {
        var items := sliced.value;
        MapRecordsOk(cfg, items);
        if MapRecords(cfg, items).Ok? {
          var records := MapRecords(cfg, items).value;
          forall i | 0 <= i < |records|
            ensures records[i].Obj? && records[i].fields.Keys == RuleKeys(cfg.rules) + {"platform"}
            ensures records[i].fields["platform"] == Str(cfg.platform)
          {
            RecordShape(cfg, items[i]);
          }
        }
      }
    }
  }

  /** A result document without the tool's results key gives an empty list, not an error. */
  lemma MissingKeyIsEmpty(cfg: Config, results: map<string, Json>)
    requires cfg.resultsKey !in results
    ensures Normalize(cfg, Ok(results)) == Arr([])
  {
  }

  /** When the results value is a list: if every element among the first
      `cap` makes a record, the output is exactly those records, one per
      element and in order, `min(len, cap)` of them; if any of them raises,
      the output is the error object of the first that raises and no list. */
  lemma ListResults(cfg: Config, results: map<string, Json>, items: seq<Json>)
    requires cfg.resultsKey in results && results[cfg.resultsKey] == Arr(items)
    ensures var out := Normalize(cfg, Ok(results)); var n := Min(|items|, cfg.cap);
      ((forall i :: 0 <= i < n ==> MakeRecord(cfg, items[i]).Ok?) ==>
        out.Arr? && |out.items| == n &&
        forall i :: 0 <= i < n ==> MakeRecord(cfg, items[i]) == Ok(out.items[i])) &&
      (forall k ::
        (0 <= k < n && MakeRecord(cfg, items[k]).Raised? &&
         forall j :: 0 <= j < k ==> MakeRecord(cfg, items[j]).Ok?) ==>
        out == ErrorObject(MakeRecord(cfg, items[k]).message))
  {
    var n := Min(|items|, cfg.cap);
    var capped := items[..n];
    assert SliceItems(Arr(items), cfg.cap) == Ok(capped);
    MapRecordsOk(cfg, capped);
    forall k | 0 <= k < n && MakeRecord(cfg, items[k]).Raised? &&
        (forall j :: 0 <= j < k ==> MakeRecord(cfg, items[j]).Ok?)
      ensures Normalize(cfg, Ok(results)) == ErrorObject(MakeRecord(cfg, items[k]).message)
    {
      MapRecordsFirstRaise(cfg, capped, k);
    }
  }

  /** A results value that is a string is sliced and iterated character by
      character: an empty one (or a zero cap) gives an empty list, any other
      raises on the first character's missing `.get`. */
  lemma StringResults(cfg: Config, results: map<string, Json>, s: string)
    requires cfg.resultsKey in results && results[cfg.resultsKey] == Str(s)
    ensures s == "" || cfg.cap == 0 ==> Normalize(cfg, Ok(results)) == Arr([])
    ensures s != "" && cfg.cap > 0 ==> Normalize(cfg, Ok(results)) == ErrorObject(NoGetMessage(Str([s[0]])))
  {
    var items := SliceItems(Str(s), cfg.cap).value;
    if s != "" && cfg.cap > 0 {
      MapRecordsFirstRaise(cfg, items, 0);
    }
  }

  /** A results value that is neither a list nor a string cannot be sliced:
      the output is the error object. */
  lemma OtherResults(cfg: Config, results: map<string, Json>)
    requires cfg.resultsKey in results && !results[cfg.resultsKey].Arr? && !results[cfg.resultsKey].Str?
    ensures IsErrorObject(Normalize(cfg, Ok(results)))
    ensures results[cfg.resultsKey].Obj? ==> Normalize(cfg, Ok(results)) == ErrorObject(UnhashableSliceMessage)
    ensures !results[cfg.resultsKey].Obj? ==>
      Normalize(cfg, Ok(results)) == ErrorObject(NotSubscriptableMessage(results[cfg.resultsKey]))
  {
  }
}
