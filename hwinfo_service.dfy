/** Normalisation of the monitoring source's JSON: every reading is stamped in
    place with its position in the list and with the name of its reading
    type. The HTTP fetch is not modelled; the fetched JSON is an input. */
module HwInfo {
  import opened PyValues
  import opened Readings

  /** The names of the reading-type codes, keyed by the code as text. */
  const ReadingTypes: map<string, string> :=
    map["0" := "None", "1" := "Temp", "2" := "Voltage",
        "3" := "Fan", "4" := "Current", "5" := "Power",
        "6" := "Clock", "7" := "Usage", "8" := "Other"]

  /** `reading_types[str(code)]`; None where that lookup raises KeyError. */
  function LookupTypeName(code: int): Option<string> {
    var key := IntToString(code);
    if key in ReadingTypes then Some(ReadingTypes[key]) else None
  }

  /** The same names listed in code order. */
  const TypeNames: seq<string> := ["None", "Temp", "Voltage", "Fan", "Current", "Power", "Clock", "Usage", "Other"]

  /** The name of a reading-type code, by its position in TypeNames. */
  function TypeName(code: int): Option<string> {
    if 0 <= code < |TypeNames| then Some(TypeNames[code]) else None
  }

  /** Exactly the codes 0 to 8 have a name in the table; any other int,
      negative or above 8, makes the lookup fail. */
  lemma LookupDefinedExactly(code: int)
    ensures LookupTypeName(code).Some? <==> 0 <= code <= 8
  {
    var key := IntToString(code);
    if 0 <= code <= 8 {
      LookupOfDigit(code);
    } else {
      assert forall k :: k in ReadingTypes ==> |k| == 1 && '0' <= k[0] <= '8';
      if code == 9 {
        assert key == "9";
      } else if code > 9 {
        assert |key| > 1;
      } else {
        assert key[0] == '-';
      }
    }
  }

  /** The text of a code from 0 to 8 is its single digit, which the table
      maps to the code's name in TypeNames. */
  lemma LookupOfDigit(code: int)
    requires 0 <= code <= 8
    ensures LookupTypeName(code) == Some(TypeNames[code])
  {
    var key := IntToString(code);
    assert key == [DigitChar(code)];
    if code == 0 { assert key == "0"; }
    else if code == 1 { assert key == "1"; }
    else if code == 2 { assert key == "2"; }
    else if code == 3 { assert key == "3"; }
    else if code == 4 { assert key == "4"; }
    else if code == 5 { assert key == "5"; }
    else if code == 6 { assert key == "6"; }
    else if code == 7 { assert key == "7"; }
    else { assert key == "8"; }
  }

  /** Looking a code up by its text in the table and by position in
      TypeNames agree on every int, the failing ones included. */
  lemma LookupIsTypeName(code: int)
    ensures LookupTypeName(code) == TypeName(code)
  {
    LookupDefinedExactly(code);
    if 0 <= code <= 8 {
      LookupOfDigit(code);
    }
  }

  /** No two codes share a name, so the name written back identifies the
      code. */
  lemma TypeNameInjective(a: int, b: int)
    requires TypeName(a).Some? && TypeName(a) == TypeName(b)
    ensures a == b
  {
    assert forall i, j :: 0 <= i < j < |TypeNames| ==> TypeNames[i] != TypeNames[j];
  }

  lemma TypeNameExamples()
    ensures LookupTypeName(0) == Some("None")
    ensures LookupTypeName(5) == Some("Power")
    ensures LookupTypeName(8) == Some("Other")
    ensures LookupTypeName(9) == None && LookupTypeName(-1) == None
  {
    LookupDefinedExactly(9);
    LookupDefinedExactly(-1);
    assert IntToString(0) == "0";
    assert IntToString(5) == "5";
    assert IntToString(8) == "8";
  }

  /** A reading after `change_reading_types` has written its type name. */
  function WithTypeName(r: Reading): Reading
    requires TypeName(r.readingType).Some?
  {
    r.(readingTypeName := TypeName(r.readingType))
  }

  /** The position of the first reading whose type code has no name: where
      `change_reading_types` raises, or the length when it does not. */
  function FirstUnknownType(s: seq<Reading>): (k: nat)
    ensures k <= |s|
    ensures forall i :: 0 <= i < k ==> TypeName(s[i].readingType).Some?
    ensures k < |s| ==> TypeName(s[k].readingType).None?
  {
    if s == [] || TypeName(s[0].readingType).None? then 0 else 1 + FirstUnknownType(s[1..])
  }

  /** Where the first unknown code sits depends on the type codes alone. */
  lemma {:induction false} FirstUnknownTypeOfCodes(s: seq<Reading>, t: seq<Reading>)
    requires |s| == |t|
    requires forall i :: 0 <= i < |s| ==> s[i].readingType == t[i].readingType
    ensures FirstUnknownType(s) == FirstUnknownType(t)
  {
    if s != [] && TypeName(s[0].readingType).Some? {
      FirstUnknownTypeOfCodes(s[1..], t[1..]);
    }
  }

  /** The JSON document of one poll; only its `readings` list is modelled. */
  class HwInfoJson {
    const readings: array<Reading>

    constructor (readings: array<Reading>)
      ensures this.readings == readings
    {
      this.readings := readings;
    }
  }

  /** `change_reading_types`: writes `readingTypeName` into each reading in
      list order and returns the same document. An unknown code raises
      KeyError with the code as text; the readings before it keep the names
      already written, the rest are untouched. */
  method ChangeReadingTypes(json: HwInfoJson) returns (r: Result<HwInfoJson>)
    modifies json.readings
    ensures var k := FirstUnknownType(old(json.readings[..]));
      && (r.Ok? <==> k == json.readings.Length)
      && (r.Ok? ==> r.value == json)
      && (r.Err? ==> r.error == KeyError(IntToString(old(json.readings[k]).readingType)))
      && (forall i :: 0 <= i < k ==> json.readings[i] == WithTypeName(old(json.readings[i])))
      && (forall i :: k <= i < json.readings.Length ==> json.readings[i] == old(json.readings[i]))
  {
    var readings := json.readings;
    ghost var before := readings[..];
    ghost var k := FirstUnknownType(before);
    var index := 0;
    while index < readings.Length
      invariant index <= k
      invariant forall i :: 0 <= i < index ==> readings[i] == WithTypeName(before[i])
      invariant forall i :: index <= i < readings.Length ==> readings[i] == before[i]
    {
      var key := IntToString(readings[index].readingType);
      LookupIsTypeName(readings[index].readingType);
      if key !in ReadingTypes {
        assert index == k;
        return Err(KeyError(key));
      }
      readings[index] := readings[index].(readingTypeName := Some(ReadingTypes[key]));
      index := index + 1;
    }
    return Ok(json);
  }

  /** The client of the monitoring source. */
  class HwInfoService {
    const url: string

    constructor (host: string, port: string)
      ensures url == "http://" + host + ":" + port + "/json.json"
    {
      url := "http://" + host + ":" + port + "/json.json";
    }

    /** `get_normalized_hwinfo_json` after the fetch: stamps every reading with
        its position, then names the reading types. Indexing finishes before
        naming starts, so even when naming raises every reading carries its
        index; on success every reading carries both fields and nothing else
        has changed. */
    method GetNormalizedHwinfoJson(json: HwInfoJson) returns (r: Result<HwInfoJson>)
      modifies json.readings
      ensures var k := FirstUnknownType(old(json.readings[..]));
        && (r.Ok? <==> k == json.readings.Length)
        && (r.Ok? ==> r.value == json)
        && (r.Err? ==> r.error == KeyError(IntToString(old(json.readings[k]).readingType)))
        && (forall i :: 0 <= i < k ==>
              json.readings[i] == WithTypeName(old(json.readings[i])).(readingIndex := Some(i)))
        && (forall i :: k <= i < json.readings.Length ==>
              json.readings[i] == old(json.readings[i]).(readingIndex := Some(i)))
      ensures forall i :: 0 <= i < json.readings.Length ==> json.readings[i].readingIndex == Some(i)
      ensures r.Ok? ==> forall i :: 0 <= i < json.readings.Length ==> json.readings[i].readingTypeName.Some?
    {
      var readings := json.readings;
      for readingIndex := 0 to readings.Length
        invariant forall i :: 0 <= i < readingIndex ==> readings[i] == old(readings[i]).(readingIndex := Some(i))
        invariant forall i :: readingIndex <= i < readings.Length ==> readings[i] == old(readings[i])
      {
        readings[readingIndex] := readings[readingIndex].(readingIndex := Some(readingIndex));
      }
      FirstUnknownTypeOfCodes(old(readings[..]), readings[..]);
      var named := ChangeReadingTypes(json);
      if named.Err? {
        return Err(named.error);
      }
      return Ok(json);
    }
  }
}
