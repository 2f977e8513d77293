/**
 * The star widget of src/components/StarRating.tsx: five buttons for the
 * values 1 to 5, each filled when its value is at most the rating, labelled
 * for screen readers, and a click handler guarded by `readOnly` and the
 * presence of a callback. It holds no state.
 */
module StarRating {
  import opened Wrappers

  /** `const stars = [1, 2, 3, 4, 5]`. */
  const Stars: seq<int> := [1, 2, 3, 4, 5]

  /** What one rendered button shows. */
  datatype StarButton = StarButton(value: int, filled: bool, ariaLabel: string, disabled: bool)

  /** `readOnly = false`: an omitted prop means interactive. */
  function ReadOnlyProp(readOnly: Option<bool>): (r: bool)
    ensures readOnly == None ==> !r
    ensures readOnly.Some? ==> r == readOnly.value
  {
    readOnly.GetOr(false)
  }

  /** The icon choice `star <= rating`. */
  predicate IsFilled(star: int, rating: int) { star <= rating }

  /** The number a string of decimal digits denotes, most significant digit first. */
  function DigitsValue(s: string): int {
    if s == [] then 0 else DigitsValue(s[..|s| - 1]) * 10 + (s[|s| - 1] as int - '0' as int)
  }

  /** Decimal digits of a natural number, as template interpolation writes it: no leading zero, reading back as n. */
  function DecimalString(n: nat): (s: string)
    ensures |s| >= 1
    ensures forall i :: 0 <= i < |s| ==> '0' <= s[i] <= '9'
    ensures s[0] == '0' ==> s == "0"
    ensures DigitsValue(s) == n
  {
    var d := ['0' + (n % 10) as char];
    if n < 10 then d
    else
      var t := DecimalString(n / 10);
      assert (t + d)[..|t + d| - 1] == t;
      t + d
  }

  /** `${star} star${star !== 1 ? 's' : ''}`. */
  function StarLabel(star: nat): (text: string)
    ensures var n := |DecimalString(star)|;
      n + 5 <= |text| && text[..n] == DecimalString(star) && text[n..n + 5] == " star"
    ensures text[|text| - 1] == 's' <==> star != 1
    ensures |text| == |DecimalString(star)| + 5 + (if star != 1 then 1 else 0)
  {
    DecimalString(star) + " star" + (if star != 1 then "s" else "")
  }

  lemma StarLabelExamples()
    ensures StarLabel(1) == "1 star"
    ensures StarLabel(2) == "2 stars"
    ensures StarLabel(5) == "5 stars"
  {
  }

  /** `stars.map(...)`. */
  function Render(rating: int, readOnly: bool): (buttons: seq<StarButton>)
    ensures |buttons| == 5
    ensures forall i :: 0 <= i < 5 ==> buttons[i].value == i + 1 && buttons[i].disabled == readOnly
    ensures forall i :: 0 <= i < 5 ==> buttons[i].ariaLabel == StarLabel(i + 1)
    ensures forall i :: 0 <= i < 5 ==> (buttons[i].filled <==> i + 1 <= rating)
  {
    seq(|Stars|, i requires 0 <= i < |Stars| => StarButton(Stars[i], IsFilled(Stars[i], rating), StarLabel(Stars[i]), readOnly))
  }

  /** The values run from 1 to 5 in ascending order. */
  lemma RenderAscending(rating: int, readOnly: bool)
    ensures var b := Render(rating, readOnly);
      forall i, j :: 0 <= i < j < |b| ==> b[i].value < b[j].value
  {
  }

  /** Number of filled buttons in a row. */
  function FilledCount(buttons: seq<StarButton>): (n: nat)
    ensures n <= |buttons|
  {
    if buttons == [] then 0 else (if buttons[0].filled then 1 else 0) + FilledCount(buttons[1..])
  }

  /** The filled stars are exactly the first ones, so a rating r gives min(max(r, 0), 5) filled stars. */
  lemma {:induction false} FilledCountIsClampedRating(rating: int, readOnly: bool)
    ensures FilledCount(Render(rating, readOnly)) == if rating < 0 then 0 else if rating > 5 then 5 else rating
  {
    var b := Render(rating, readOnly);
    assert FilledCount(b[5..]) == 0 by { assert b[5..] == []; }
    assert FilledCount(b[4..]) == (if 5 <= rating then 1 else 0) by { assert b[4..][1..] == b[5..]; }
    assert FilledCount(b[3..]) == (if 4 <= rating then 1 else 0) + FilledCount(b[4..]) by { assert b[3..][1..] == b[4..]; }
    assert FilledCount(b[2..]) == (if 3 <= rating then 1 else 0) + FilledCount(b[3..]) by { assert b[2..][1..] == b[3..]; }
    assert FilledCount(b[1..]) == (if 2 <= rating then 1 else 0) + FilledCount(b[2..]) by { assert b[1..][1..] == b[2..]; }
    assert FilledCount(b) == (if 1 <= rating then 1 else 0) + FilledCount(b[1..]);
  }

  /** `handleClick(value)`: the callback gets the value exactly when the widget is interactive and has a callback. */
  function HandleClick(readOnly: bool, hasCallback: bool, value: int): (call: Option<int>)
    ensures call.Some? <==> !readOnly && hasCallback
    ensures call.Some? ==> call.value == value
  {
    if !readOnly && hasCallback then Some(value) else None
  }
}
