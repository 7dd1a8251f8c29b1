/** The summaries the detail screen shows for a registration. */
module SensorDisplay {
  import opened Sensors

  /** One attribute line: its title and its summary. */
  datatype Row = Row(title: string, summary: string)

  /** What the screen shows: the unique id, state, device class and icon
      summaries, whether the attribute category is visible, and its rows. */
  datatype DisplayModel = DisplayModel(
    uniqueId: string,
    state: string,
    deviceClass: Option<string>,
    icon: Option<string>,
    attributesVisible: bool,
    attributeRows: seq<Row>)

  /** Kotlin's `Char.isWhitespace()`: a Java whitespace character or a
      Unicode space, line or paragraph separator, as of Unicode 6.3 and later
      (U+180E, a space separator up to Unicode 6.2, is not one). */
  predicate IsWhitespace(c: char) {
    || ('\t' <= c <= '\r')
    || ('\U{1C}' <= c <= ' ')
    || c == '\U{A0}' || c == '\U{1680}'
    || ('\U{2000}' <= c <= '\U{200A}')
    || c == '\U{2028}' || c == '\U{2029}' || c == '\U{202F}' || c == '\U{205F}' || c == '\U{3000}'
  }

  /** Kotlin's `isBlank()`: `all { it.isWhitespace() }` */
  function IsBlank(s: string): (r: bool)
    ensures r <==> forall i :: 0 <= i < |s| ==> IsWhitespace(s[i])
  {
    s == [] || (IsWhitespace(s[0]) && IsBlank(s[1..]))
  }

  /** `isNullOrBlank()`: true for null, otherwise whether the string is blank. */
  function IsNullOrBlank(s: Option<string>): (r: bool)
    ensures s.None? ==> r
    ensures s.Some? ==> (r <==> forall i :: 0 <= i < |s.value| ==> IsWhitespace(s.value[i]))
  {
    match s
    case None => true
    case Some(v) => IsBlank(v)
  }

  /** The state summary: the state alone when the unit is null or blank,
      otherwise the state, a space and the unit. */
  function StateSummary(state: string, unit: Option<string>): (r: string)
    ensures |state| <= |r| && r[..|state|] == state
    ensures r == state <==> IsNullOrBlank(unit)
    ensures !IsNullOrBlank(unit) ==> r[|state|..] == " " + unit.value
  {
    if IsNullOrBlank(unit) then state else state + " " + unit.value
  }

  /** `attributes[key]`: the value of the first entry with that key, or None
      when no entry has it. */
  function Lookup(attributes: seq<Attribute>, key: string): (r: Option<Option<string>>)
    ensures r.None? <==> forall i :: 0 <= i < |attributes| ==> attributes[i].key != key
  {
    if attributes == [] then None
    else if attributes[0].key == key then Some(attributes[0].value)
    else Lookup(attributes[1..], key)
  }

  /** `attributes[key]?.toString() ?: ""` */
  function Summary(found: Option<Option<string>>): (r: string)
    ensures found.Some? && found.value.Some? ==> r == found.value.value
    ensures found.None? || found.value.None? ==> r == ""
  {
    match found
    case Some(Some(v)) => v
    case _ => ""
  }

  /** The keys of a map: no two entries share one. */
  ghost predicate DistinctKeys(attributes: seq<Attribute>) {
    forall i, j :: 0 <= i < j < |attributes| ==> attributes[i].key != attributes[j].key
  }

  /** Looking up an entry's own key finds that entry's value. */
  lemma {:induction false} LookupFindsEntry(attributes: seq<Attribute>, i: int)
    requires DistinctKeys(attributes) && 0 <= i < |attributes|
    ensures Lookup(attributes, attributes[i].key) == Some(attributes[i].value)
  {
    if i > 0 {
      assert attributes[0].key != attributes[i].key;
      assert attributes[1..][i - 1] == attributes[i];
      LookupFindsEntry(attributes[1..], i - 1);
    }
  }

  /** The examples of a temperature reading with and without a unit. */
  lemma StateSummaryExamples()
    ensures StateSummary("21.5", Some("°C")) == "21.5 °C"
    ensures StateSummary("21.5", None) == "21.5"
    ensures StateSummary("21.5", Some(" ")) == "21.5"
  {
    assert !IsWhitespace("°C"[0]);
    assert "21.5" + " " + "°C" == "21.5 °C";
  }
}
