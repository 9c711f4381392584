/** The catch block of `onMint`: how an error thrown while minting is turned
    into the text of an error alert. */
module MintErrors {
  import opened JsString

  const GenericFailure := "Minting failed! Please try again!"
  const SoldOutText := "SOLD OUT!"
  const NotLiveText := "Minting period hasn't started yet."
  const InsufficientFundsText := "Insufficient funds to mint. Please fund your wallet."

  /** Program error code the candy machine reports when every item is redeemed. */
  const SoldOutCode := 311
  /** Program error code the candy machine reports before its go-live date. */
  const NotLiveCode := 312

  /** The fields of a thrown error that the catch block reads: `msg` and
      `code` (set on program errors decoded by Anchor) and `message`
      (set on every `Error`). Any of them may be `undefined`. */
  datatype ThrownError = ThrownError(msg: Option<string>, code: Option<int>, message: Option<string>)

  /** What the catch block does with an error: either it computes the alert
      text (and whether it latches `isSoldOut`), or it throws itself, because
      it calls `indexOf` on an `error.message` that is `undefined`. */
  datatype Caught =
    | Handled(text: string, latchSoldOut: bool)
    | CatchThrows

  /** The catch block as written: the `indexOf` results are tested for
      truthiness, so each test reads "the message does not start with". */
  function Classify(e: ThrownError): (r: Caught)
    // the catch block fails exactly when it has to read an undefined `message`
    ensures r.CatchThrows? <==> !Truthy(e.msg) && e.message.None?
    // the sold-out latch is set only by the structured code 311
    ensures r.Handled? && r.latchSoldOut <==> Truthy(e.msg) && e.code == Some(SoldOutCode)
    // a truthy `msg` is shown as it is, except for the two known codes
    ensures Truthy(e.msg) ==>
      r == Handled(if e.code == Some(SoldOutCode) then SoldOutText
                   else if e.code == Some(NotLiveCode) then NotLiveText
                   else e.msg.value, e.code == Some(SoldOutCode))
    // without `msg`, only a message starting with "0x138" reads "SOLD OUT!";
    // everything else is the generic failure text
    ensures !Truthy(e.msg) && e.message.Some? ==>
      r == Handled(if StartsWith(e.message.value, "0x138") then SoldOutText else GenericFailure, false)
    // the insufficient-funds text is never chosen by the classifier
    ensures r.Handled? && r.text == InsufficientFundsText ==> e.msg == Some(InsufficientFundsText)
  {
    var text := if Truthy(e.msg) then e.msg.value else GenericFailure;
    if !Truthy(e.msg) then
      if e.message.None? then CatchThrows
      else
        var m := e.message.value;
        if IndexOf(m, "0x138") != 0 then Handled(text, false)
        else if IndexOf(m, "0x137") != 0 then Handled(SoldOutText, false)
        else if IndexOf(m, "0x135") != 0 then Handled(InsufficientFundsText, false)
        else Handled(text, false)
    else
      if e.code == Some(SoldOutCode) then Handled(SoldOutText, true)
      else if e.code == Some(NotLiveCode) then Handled(NotLiveText, false)
      else Handled(text, false)
  }

  /** An error without `msg` whose text names the sold-out program error
      0x137 after other words is reported with the generic failure text. */
  lemma SoldOutCodeInTextIsMissed()
    ensures Classify(ThrownError(None, None, Some("custom program error: 0x137")))
         == Handled(GenericFailure, false)
  {
    var chain := "custom program error: 0x137";
    assert chain[0] == 'c';
    assert !StartsWith(chain, "0x138");
  }

  /** An error with an empty `msg` whose text starts with "0x138" is reported
      as sold out, without latching `isSoldOut`. */
  lemma PrefixedTextReadsSoldOut()
    ensures Classify(ThrownError(Some(""), None, Some("0x138"))) == Handled(SoldOutText, false)
  {
    assert StartsWith("0x138", "0x138");
  }
}
