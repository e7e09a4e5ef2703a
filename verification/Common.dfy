/** Small shared vocabulary. */
module Common {
  datatype Option<+T> = None | Some(value: T)

  datatype Result<+T, +E> = Ok(value: T) | Err(error: E)

  /** Position of the first occurrence of `c`, as Python's `str.find`. */
  function Find(text: string, c: char, from: nat := 0): (r: Option<nat>)
    requires from <= |text|
    ensures r.Some? ==> from <= r.value < |text| && text[r.value] == c && c !in text[from..r.value]
    ensures r.None? ==> c !in text[from..]
    decreases |text| - from
  {
    if from == |text| then None
    else if text[from] == c then Some(from)
    else
      var r := Find(text, c, from + 1);
      assert text[from..] == [text[from]] + text[from + 1..];
      assert r.Some? ==> text[from..r.value] == [text[from]] + text[from + 1..r.value];
      r
  }
}
