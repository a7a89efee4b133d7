/**
 * Radiosonde tracking: the records decoded from the rs41mod/dfm09mod JSON
 * output, the manager that keeps the last record of every sonde for ten
 * minutes, and the fields a sonde shows on the map.
 *
 * Byte decoding and `json.loads` are a parameter (`loads`), the wall clock
 * is a parameter in milliseconds, and the map the locations are pushed to
 * is reported as an out-parameter instead of being called.
 */
module Radiosonde {
  import opened Wrappers
  import opened Json
  import opened Text

  /** Seconds a sonde is kept after its last record. */
  const TTL: int := 600

  /** The balloon symbol of the APRS icon set. */
  const SONDE_SYMBOL: Object := map["x" := Int(2), "y" := Int(0)]

  /** Each record key shown on the map, with the display key it is shown under. */
  const DISPLAY_FIELDS: seq<(string, string)> := [
    ("id", "callsign"), ("altitude", "altitude"), ("vel_v", "vspeed"), ("vel_h", "speed"),
    ("heading", "course"), ("temp", "temp"), ("humidity", "humidity"), ("sats", "sats"),
    ("type", "mode"), ("frame", "frame"), ("freq", "freq"), ("ttl", "ttl")
  ]

  // ---------------------------------------------------------------------------
  // The map entry of a sonde

  /** No two record keys are shown under the same display key, and none under `symbol`. */
  predicate DistinctDisplayKeys(fields: seq<(string, string)>) {
    && (forall i, j :: 0 <= i < j < |fields| ==> fields[i].1 != fields[j].1)
    && (forall i :: 0 <= i < |fields| ==> fields[i].1 != "symbol")
  }

  /** `res` with every field of `fields` present in `data` copied under its display key, in order. */
  function CopyFields(data: Object, res: Object, fields: seq<(string, string)>): Object
    decreases |fields|
  {
    if fields == [] then res
    else
      var (key, display) := fields[0];
      CopyFields(data, if key in data then res[display := data[key]] else res, fields[1..])
  }

  /**
   * What copying the fields does, key by key: a display key whose record
   * key is present holds the record's value; a display key whose record key
   * is absent, and every key that is no display key, is as in `res`.
   */
  lemma {:induction false} CopyFieldsSpec(data: Object, res: Object, fields: seq<(string, string)>)
    requires DistinctDisplayKeys(fields)
    ensures var r := CopyFields(data, res, fields);
      && (forall i :: 0 <= i < |fields| && fields[i].0 in data ==> fields[i].1 in r && r[fields[i].1] == data[fields[i].0])
      && (forall i :: 0 <= i < |fields| && fields[i].0 !in data ==> Kept(r, res, fields[i].1))
      && (forall d :: (forall i :: 0 <= i < |fields| ==> fields[i].1 != d) ==> Kept(r, res, d))
    decreases |fields|
  {
    if fields != [] {
      var (key, display) := fields[0];
      var res' := if key in data then res[display := data[key]] else res;
      var rest := fields[1..];
      assert DistinctDisplayKeys(rest) by {
        forall i | 0 <= i < |rest| ensures rest[i] == fields[i + 1] { }
      }
      CopyFieldsSpec(data, res', rest);
      var r := CopyFields(data, res', rest);
      assert r == CopyFields(data, res, fields);
      assert forall i :: 0 <= i < |rest| ==> rest[i].1 != display;
      forall i | 0 <= i < |fields| && fields[i].0 in data
        ensures fields[i].1 in r && r[fields[i].1] == data[fields[i].0]
      {
        if i > 0 {
          assert rest[i - 1] == fields[i];
        } else {
          assert Kept(r, res', display);
        }
      }
      forall i | 0 <= i < |fields| && fields[i].0 !in data
        ensures Kept(r, res, fields[i].1)
      {
        if i > 0 {
          assert rest[i - 1] == fields[i];
        }
      }
      forall d | forall i :: 0 <= i < |fields| ==> fields[i].1 != d
        ensures Kept(r, res, d)
      {
        assert fields[0].1 != d;
        assert forall i :: 0 <= i < |rest| ==> rest[i].1 != d by {
          forall i | 0 <= i < |rest| ensures rest[i].1 != d {
            assert rest[i] == fields[i + 1];
          }
        }
        assert Kept(r, res', d);
      }
    }
  }

  /** `r` has the key `d` exactly when `res` does, with the same value. */
  predicate Kept(r: Object, res: Object, d: string) {
    (d in r <==> d in res) && (d in res ==> r[d] == res[d])
  }

  lemma DisplayKeysDistinct()
    ensures DistinctDisplayKeys(DISPLAY_FIELDS)
  {
    // the display keys already differ in their length or their first letter
    var F := DISPLAY_FIELDS;
    assert forall i :: 0 <= i < |F| ==> F[i].1 != [];
    assert forall i, j :: 0 <= i < j < |F| ==> |F[i].1| != |F[j].1| || F[i].1[0] != F[j].1[0];
  }

  /**
   * The dictionary a sonde's map location serialises to: the location's own
   * entries `base`, the balloon symbol, and the record's fields under their
   * display keys.
   */
  function LocationDict(data: Object, base: Object): Object {
    CopyFields(data, base["symbol" := Obj(SONDE_SYMBOL)], DISPLAY_FIELDS)
  }

  /**
   * The symbol is always there; each record key present gives exactly its
   * display key, with the record's value; an absent record key adds
   * nothing; every other key of the location is kept.
   */
  lemma LocationDictFields(data: Object, base: Object)
    ensures var r := LocationDict(data, base);
      && "symbol" in r && r["symbol"] == Obj(SONDE_SYMBOL)
      && (forall i :: 0 <= i < |DISPLAY_FIELDS| && DISPLAY_FIELDS[i].0 in data ==>
            DISPLAY_FIELDS[i].1 in r && r[DISPLAY_FIELDS[i].1] == data[DISPLAY_FIELDS[i].0])
      && (forall i :: 0 <= i < |DISPLAY_FIELDS| && DISPLAY_FIELDS[i].0 !in data ==> Kept(r, base, DISPLAY_FIELDS[i].1))
      && (forall d :: d != "symbol" && (forall i :: 0 <= i < |DISPLAY_FIELDS| ==> DISPLAY_FIELDS[i].1 != d) ==> Kept(r, base, d))
  {
    DisplayKeysDistinct();
    SymbolThenFields(data, base, DISPLAY_FIELDS);
  }

  /** `LocationDictFields` for any list of fields with distinct display keys. */
  lemma SymbolThenFields(data: Object, base: Object, fields: seq<(string, string)>)
    requires DistinctDisplayKeys(fields)
    ensures var r := CopyFields(data, base["symbol" := Obj(SONDE_SYMBOL)], fields);
      && "symbol" in r && r["symbol"] == Obj(SONDE_SYMBOL)
      && (forall i :: 0 <= i < |fields| && fields[i].0 in data ==> fields[i].1 in r && r[fields[i].1] == data[fields[i].0])
      && (forall i :: 0 <= i < |fields| && fields[i].0 !in data ==> Kept(r, base, fields[i].1))
      && (forall d :: d != "symbol" && (forall i :: 0 <= i < |fields| ==> fields[i].1 != d) ==> Kept(r, base, d))
  {
    var res := base["symbol" := Obj(SONDE_SYMBOL)];
    CopyFieldsSpec(data, res, fields);
    var r := CopyFields(data, res, fields);
    assert Kept(r, res, "symbol");
    forall d | d != "symbol" && (forall i :: 0 <= i < |fields| ==> fields[i].1 != d)
      ensures Kept(r, base, d)
    {
      assert Kept(r, res, d);
    }
  }

  // ---------------------------------------------------------------------------
  // The manager's bookkeeping, as functions of the stored records

  /** `data.get("id")` is present and true. */
  predicate HasId(data: Object) {
    "id" in data && Truthy(data["id"])
  }

  /**
   * A key of the manager's dictionary, as Python identifies keys: equal
   * numbers are one key whatever their type (`1`, `1.0` and `True`).
   */
  datatype Key = NullKey | NumKey(x: real) | StrKey(s: string)

  /** The dictionary key a value stands for; `None` for a list or an object, which are unhashable. */
  function KeyOf(v: Value): Option<Key> {
    match v
    case Null => Some(NullKey)
    case Str(s) => Some(StrKey(s))
    case Arr(_) => None
    case Obj(_) => None
    case _ => Some(NumKey(NumberOf(v)))
  }

  /**
   * Two hashable values are the same key exactly when Python finds them
   * equal: numbers of equal value, or otherwise equal values; lists and
   * objects are no key at all.
   */
  lemma KeyOfIdentifies(a: Value, b: Value)
    ensures KeyOf(a).None? <==> a.Arr? || a.Obj?
    ensures KeyOf(a).Some? && KeyOf(b).Some? ==>
      (KeyOf(a) == KeyOf(b) <==>
        (IsNumber(a) && IsNumber(b) && NumberOf(a) == NumberOf(b)) || (!IsNumber(a) && !IsNumber(b) && a == b))
  {
  }

  /** The record's id is true and can be stored under: the manager keeps it. */
  predicate Stores(data: Object) {
    HasId(data) && KeyOf(data["id"]).Some?
  }

  /** The record's id is true but a list or an object: storing it raises `TypeError`. */
  predicate Unhashable(data: Object) {
    HasId(data) && KeyOf(data["id"]).None?
  }

  /** The record as the manager stores it: with the time to live and the receive time in milliseconds. */
  function Stamp(data: Object, nowMs: real): Object {
    data["ttl" := Int(TTL)]["timestamp" := Real(nowMs)]
  }

  /** The stored records after `update(data)`: unchanged without an id or with an unhashable one, otherwise the stamped record under its id's key. */
  function Updated(sondes: map<Key, Object>, data: Object, nowMs: real): (r: map<Key, Object>)
    ensures !Stores(data) ==> r == sondes
    ensures Stores(data) ==> KeyOf(data["id"]).value in r && r[KeyOf(data["id"]).value] == Stamp(data, nowMs)
    ensures forall k :: k in sondes ==> k in r
    ensures forall k :: k in r && !(Stores(data) && k == KeyOf(data["id"]).value) ==> k in sondes && r[k] == sondes[k]
  {
    if Stores(data) then sondes[KeyOf(data["id"]).value := Stamp(data, nowMs)] else sondes
  }

  /** Whether `update` pushes a location to the map: the record was stored and has a latitude and a longitude. */
  predicate Locates(data: Object) {
    Stores(data) && "lat" in data && "lon" in data
  }

  /**
   * The debug message after the map push formats latitude, longitude and
   * altitude (0 when absent) as fixed-point numbers, which raises for any
   * value that is not a number and for an integer too large for a double.
   */
  predicate FormatFails(data: Object)
    requires Locates(data)
  {
    !Formattable(data["lat"]) || !Formattable(data["lon"]) || ("altitude" in data && !Formattable(data["altitude"]))
  }

  /** A stored timestamp that is there but is not a number: subtracting it from the time raises. */
  predicate BadTimestamp(record: Object) {
    "timestamp" in record && !IsNumber(record["timestamp"])
  }

  /** `record.get("timestamp", 0)`, for a record whose timestamp is a number or absent. */
  function TimestampOf(record: Object): real
    requires !BadTimestamp(record)
  {
    if "timestamp" in record then NumberOf(record["timestamp"]) else 0.0
  }

  /** The record is older than the time to live: `now - timestamp > ttl * 1000`. */
  predicate IsExpired(record: Object, nowMs: real)
    requires !BadTimestamp(record)
  {
    nowMs - TimestampOf(record) > (TTL * 1000) as real
  }

  /** `update` raises: on storing an unhashable id, or in the debug message after the map push. */
  predicate UpdateRaises(data: Object) {
    Unhashable(data) || (Locates(data) && FormatFails(data))
  }

  predicate AllTimestampsGood(sondes: map<Key, Object>) {
    forall k :: k in sondes ==> !BadTimestamp(sondes[k])
  }

  /** The records `cleanup` keeps. */
  function Fresh(sondes: map<Key, Object>, nowMs: real): (r: map<Key, Object>)
    requires AllTimestampsGood(sondes)
    ensures forall k :: k in r <==> k in sondes && !IsExpired(sondes[k], nowMs)
    ensures forall k :: k in r ==> r[k] == sondes[k]
  {
    map k | k in sondes && !IsExpired(sondes[k], nowMs) :: sondes[k]
  }

  /** A record stored by `update` is kept by every `cleanup` within the time to live, and dropped by any later one. */
  lemma UpdateThenCleanup(sondes: map<Key, Object>, data: Object, t: real, nowMs: real)
    requires AllTimestampsGood(sondes) && Stores(data)
    ensures AllTimestampsGood(Updated(sondes, data, t))
    ensures var kept, key := Fresh(Updated(sondes, data, t), nowMs), KeyOf(data["id"]).value;
      (key in kept <==> nowMs - t <= (TTL * 1000) as real)
      && (key in kept ==> kept[key] == Stamp(data, t))
  {
    var u := Updated(sondes, data, t);
    assert TimestampOf(u[KeyOf(data["id"]).value]) == t;
  }

  /** Cleaning up twice at the same time removes nothing more. */
  lemma CleanupIdempotent(sondes: map<Key, Object>, nowMs: real)
    requires AllTimestampsGood(sondes)
    ensures AllTimestampsGood(Fresh(sondes, nowMs))
    ensures Fresh(Fresh(sondes, nowMs), nowMs) == Fresh(sondes, nowMs)
  {
  }

  // ---------------------------------------------------------------------------
  // The manager

  class RadiosondeManager {
    var sondes: map<Key, Object>
    const ttl: int

    constructor ()
      ensures sondes == map[] && ttl == TTL
    {
      sondes := map[];
      ttl := TTL;
    }

    /**
     * `update(data)`: without a true id nothing happens; otherwise the
     * record is stamped, and then replaces the sonde's previous one (storing
     * raises for an unhashable id) and, when it has a latitude and a
     * longitude, its location goes to the map. Returns the record as the
     * caller's dictionary now reads, whether a location was pushed, and
     * whether the method raised.
     */
    method Update(data: Object, nowMs: real) returns (stamped: Object, located: bool, raised: bool)
      requires ttl == TTL
      modifies this
      ensures sondes == Updated(old(sondes), data, nowMs)
      ensures stamped == if HasId(data) then Stamp(data, nowMs) else data
      ensures located <==> Locates(data)
      ensures raised <==> UpdateRaises(data)
    {
      stamped, located, raised := data, false, false;
      if !("id" in data && Truthy(data["id"])) {
        return;
      }
      stamped := stamped["ttl" := Int(ttl)];
      stamped := stamped["timestamp" := Real(nowMs)];
      var key := KeyOf(data["id"]);
      if key.None? {
        raised := true;
        return;
      }
      sondes := sondes[key.value := stamped];
      if "lat" in stamped && "lon" in stamped {
        located := true;
        var altitude := if "altitude" in stamped then stamped["altitude"] else Int(0);
        if !Formattable(stamped["lat"]) || !Formattable(stamped["lon"]) || !Formattable(altitude) {
          raised := true;
        }
      }
    }

    /**
     * `cleanup()`: removes every record older than the time to live. A
     * stored timestamp that is not a number makes the scan raise before
     * anything is removed.
     */
    method Cleanup(nowMs: real) returns (raised: bool)
      modifies this
      ensures raised <==> !AllTimestampsGood(old(sondes))
      ensures raised ==> sondes == old(sondes)
      ensures !raised ==> sondes == Fresh(old(sondes), nowMs)
    {
      if !AllTimestampsGood(sondes) {
        return true;
      }
      raised := false;
      var expired := set k | k in sondes && IsExpired(sondes[k], nowMs);
      var left := expired;
      while left != {}
        invariant left <= expired
        invariant sondes == map k | k in old(sondes) && k !in expired - left :: old(sondes)[k]
        decreases |left|
      {
        var k :| k in left;
        sondes := sondes - {k};
        left := left - {k};
      }
    }
  }

  // ---------------------------------------------------------------------------
  // The parser

  /**
   * The record of a decoder line, before normalising: the stripped line
   * must be non-empty, start with `{`, decode to a JSON object and carry
   * both `lat` and `lon`.
   */
  function Accept(line: string, loads: string -> Option<Object>): (r: Option<Object>)
    ensures r.Some? ==> r == loads(Strip(line)) && "lat" in r.value && "lon" in r.value
    ensures r.Some? <==> var s := Strip(line);
      s != [] && s[0] == '{' && loads(s).Some? && "lat" in loads(s).value && "lon" in loads(s).value
  {
    var s := Strip(line);
    if s == [] || s[0] != '{' then None
    else match loads(s)
      case None => None
      case Some(data) => if "lat" !in data || "lon" !in data then None else Some(data)
  }

  /**
   * The metadata `parse` adds: type and mode are the sonde type, the dial
   * frequency when it is not 0, and the altitude copied from `alt` when the
   * record has no altitude of its own; every other key is untouched.
   */
  function Normalize(data: Object, sondeType: string, frequency: int): (r: Object)
    ensures "type" in r && r["type"] == Str(sondeType) && "mode" in r && r["mode"] == Str(sondeType)
    ensures frequency != 0 ==> "freq" in r && r["freq"] == Int(frequency)
    ensures frequency == 0 ==> ("freq" in r <==> "freq" in data) && ("freq" in data ==> r["freq"] == data["freq"])
    ensures "altitude" in r <==> "altitude" in data || "alt" in data
    ensures "altitude" in data ==> r["altitude"] == data["altitude"]
    ensures "altitude" !in data && "alt" in data ==> r["altitude"] == data["alt"]
    ensures forall k :: k !in {"type", "mode", "freq", "altitude"} ==> (k in r <==> k in data) && (k in data ==> r[k] == data[k])
  {
    var d := data["type" := Str(sondeType)]["mode" := Str(sondeType)];
    var d := if frequency != 0 then d["freq" := Int(frequency)] else d;
    if "alt" in d && "altitude" !in d then d["altitude" := d["alt"]] else d
  }

  class RadiosondeParser {
    const sondeType: string
    const service: bool
    var frequency: int

    /** The dial frequency starts at 0, meaning "unknown". */
    constructor (sondeType: string, service: bool)
      ensures this.sondeType == sondeType && this.service == service && frequency == 0
    {
      this.sondeType := sondeType;
      this.service := service;
      frequency := 0;
    }

    method SetDialFrequency(frequency: int)
      modifies this
      ensures this.frequency == frequency
    {
      this.frequency := frequency;
    }

    /**
     * `parse(msg)`: a rejected line gives `None` and leaves the manager
     * alone; an accepted record is normalised and handed to the manager,
     * and the record (as the manager stamped it) is returned, except in
     * service mode or when the manager raised.
     */
    method Parse(line: string, loads: string -> Option<Object>, manager: RadiosondeManager, nowMs: real)
      returns (r: Option<Object>)
      requires manager.ttl == TTL
      modifies manager
      ensures Accept(line, loads).None? ==> r.None? && manager.sondes == old(manager.sondes)
      ensures Accept(line, loads).Some? ==>
        var data := Normalize(Accept(line, loads).value, sondeType, frequency);
        && manager.sondes == Updated(old(manager.sondes), data, nowMs)
        && r == if service || UpdateRaises(data) then None
                else Some(if HasId(data) then Stamp(data, nowMs) else data)
    {
      var stripped := Strip(line);
      if stripped == [] || stripped[0] != '{' {
        return None;
      }
      var decoded := loads(stripped);
      if decoded.None? {
        return None;
      }
      var data := decoded.value;
      if "lat" !in data || "lon" !in data {
        return None;
      }
      data := data["type" := Str(sondeType)];
      data := data["mode" := Str(sondeType)];
      if frequency != 0 {
        data := data["freq" := Int(frequency)];
      }
      if "alt" in data && "altitude" !in data {
        data := data["altitude" := data["alt"]];
      }
      var located, raised;
      data, located, raised := manager.Update(data, nowMs);
      if raised {
        return None;
      }
      r := if service then None else Some(data);
    }
  }
}
