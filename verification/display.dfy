/** What the mint page shows for a given state: whether the mint button is
    disabled, which label it carries, and the countdown's hour figure. */
module Display {
  import opened JsString

  /** The four things the mint button can show. */
  datatype Label =
    | SoldOutLabel             // the text "SOLD OUT"
    | Spinner                  // a progress indicator while minting
    | MintLabel                // the text "MINT"
    | CountdownLabel(date: int) // a countdown to `date` (milliseconds since the epoch)

  /** The `disabled` expression of the mint button. */
  predicate ButtonDisabled(isSoldOut: bool, isMinting: bool, isActive: bool)
  {
    isSoldOut || isMinting || !isActive
  }

  /** The nested conditional inside the mint button. */
  function ButtonLabel(isSoldOut: bool, isActive: bool, isMinting: bool, startDate: int): Label
  {
    if isSoldOut then SoldOutLabel
    else if isActive then (if isMinting then Spinner else MintLabel)
    else CountdownLabel(startDate)
  }

  /** The button is enabled exactly when it reads "MINT": every other label
      comes with a disabled button. */
  lemma EnabledIffMintLabel(isSoldOut: bool, isActive: bool, isMinting: bool, startDate: int)
    ensures !ButtonDisabled(isSoldOut, isMinting, isActive)
        <==> ButtonLabel(isSoldOut, isActive, isMinting, startDate) == MintLabel
  {
  }

  /** Label priority: sold out beats everything, the spinner shows only for an
      active sale being minted, the countdown only before activation. */
  lemma LabelPriority(isSoldOut: bool, isActive: bool, isMinting: bool, startDate: int)
    ensures isSoldOut ==> ButtonLabel(isSoldOut, isActive, isMinting, startDate) == SoldOutLabel
    ensures ButtonLabel(isSoldOut, isActive, isMinting, startDate) == Spinner
        <==> !isSoldOut && isActive && isMinting
    ensures ButtonLabel(isSoldOut, isActive, isMinting, startDate).CountdownLabel?
        <==> !isSoldOut && !isActive
  {
  }

  const MillisPerHour := 3_600_000
  const MillisPerDay := 24 * MillisPerHour

  /** `renderCounter`'s hour figure: `hours + (days || 0) * 24`. A missing or
      zero day count contributes nothing. */
  function CounterHours(days: Option<int>, hours: int): (r: int)
    ensures days.None? ==> r == hours
    ensures days.Some? ==> r - hours == 24 * days.value
  {
    hours + (if days.Some? && days.value != 0 then days.value else 0) * 24
  }

  /** When the countdown splits `total` remaining milliseconds into whole days
      and the hours left over, the figure shown is the total number of whole
      hours remaining: the day part is folded back into the hours. */
  lemma CounterShowsWholeHours(total: nat)
    ensures CounterHours(Some(total / MillisPerDay), (total % MillisPerDay) / MillisPerHour)
         == total / MillisPerHour
  {
    var d := total / MillisPerDay;
    var rest := total % MillisPerDay;
    var h := rest / MillisPerHour;
    var x := rest % MillisPerHour;
    assert total == MillisPerDay * d + rest;
    assert rest == MillisPerHour * h + x;
    assert total == MillisPerHour * (24 * d + h) + x;
    assert 0 <= x < MillisPerHour;
  }
}
