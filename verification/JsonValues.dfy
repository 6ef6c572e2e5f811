/**
  JSON values as the program sees them after parsing.
 */
module JsonValues {
  import opened Basics

  // Texts are player names here, so they are ranks like every other name.
  datatype Json = JNull | JBool(flag: bool) | JNumber(number: real) | JText(text: Name)
                | JArray(items: seq<Json>) | JObject(fields: map<string, Json>)

  // QJsonValue::toInt: a whole number that fits a 32-bit int, or else the default.
  function ToInt(v: Json, default: int): int {
    if v.JNumber? && v.number.Floor as real == v.number && -0x8000_0000 <= v.number.Floor < 0x8000_0000 then v.number.Floor
    else default
  }

  predicate FitsInt(i: int) { -0x8000_0000 <= i < 0x8000_0000 }

  function FromInt(i: int): Json { JNumber(i as real) }

  lemma IntReads(i: int, default: int)
    requires FitsInt(i)
    ensures ToInt(FromInt(i), default) == i
  {
    assert (i as real).Floor == i;
  }
}
