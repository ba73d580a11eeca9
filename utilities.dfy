/**
 * src/Core/Utilities.php: `arrayOnly`, and the empty-input guards of the two
 * date helpers. Date parsing, formatting and the clock are library calls
 * (the Library record); only their results are passed along.
 */
module Utilities {
  import opened Php
  import opened Wordpress

  /** The entries of `arr` whose key is listed in `keys` and whose value is set. */
  function Only(arr: map<string, Value>, keys: seq<string>): map<string, Value> {
    map k | k in arr && k in keys && IsSet(arr, k) :: arr[k]
  }

  /** `arrayOnly($arr, $keys)`: the entries of `arr` whose key is listed in
      `keys` and whose value is set, built one key at a time. */
  method ArrayOnly(arr: map<string, Value>, keys: seq<string>) returns (r: map<string, Value>)
    ensures r == Only(arr, keys)
    ensures forall k :: k in r ==> k in keys
    ensures forall k :: k in keys && IsSet(arr, k) ==> k in r && r[k] == arr[k]
    ensures forall k :: k in r ==> IsSet(arr, k)
  {
    r := map[];
    for i := 0 to |keys|
      invariant forall k :: k in r ==> k in keys[..i]
      invariant forall k :: k in keys[..i] && IsSet(arr, k) ==> k in r && r[k] == arr[k]
      invariant forall k :: k in r ==> IsSet(arr, k)
    {
      var key := keys[i];
      if IsSet(arr, key) {
        r := r[key := arr[key]];
      }
      assert keys[..i + 1] == keys[..i] + [key];
    }
    assert keys[..|keys|] == keys;
  }

  /** `getDaysDifference($ymd1, $ymd2)`: '' when either date is empty, otherwise
      the whole days between them. */
  function DaysDifference(ymd1: Value, ymd2: Value, lib: Library): (r: Value)
    ensures Empty(ymd1) || Empty(ymd2) <==> r == Str("")
  {
    if Empty(ymd1) then Str("")
    else if Empty(ymd2) then Str("")
    else Int(lib.daysBetween(ToStr(ymd1), ToStr(ymd2)))
  }

  /** `getFormattedDate($date)`: false for an empty date, otherwise the date
      in the site's format and the days remaining until it. */
  function FormattedDate(date: Value, lib: Library): (r: Value)
    ensures Empty(date) <==> r == Bool(false)
  {
    if Empty(date) then Bool(false)
    else Arr(map[
      "default_format" := Str(lib.formatDate(ToStr(date))),
      "remaining_days" := DaysDifference(date, Str(lib.now), lib)])
  }
}
