/** The state of the `Home` mint page and the handlers that change it:
    the chain-state refresh, the mint attempt with its catch and finally
    blocks, the countdown's activation latch and the alert's close handlers. */
module HomePage {
  import opened JsString
  import opened MintErrors
  import opened Display

  datatype Severity = Success | Info | Warning | Error

  /** The snackbar alert; `severity` may be `undefined`. */
  datatype AlertState = AlertState(open: bool, message: string, severity: Option<Severity>)

  /** What `getCandyMachineState` resolves to: the supply counters, the
      go-live date, and whether the loaded candy machine has its program. */
  datatype Snapshot = Snapshot(
    hasProgram: bool,
    goLiveDate: int,
    itemsAvailable: int,
    itemsRemaining: int,
    itemsRedeemed: int)

  /** The outcome of the chain read started by a refresh: it resolves with a
      snapshot or it rejects. */
  datatype ChainRead = ReadOk(snapshot: Snapshot) | ReadFailed

  /** The status `awaitTransactionSignatureConfirmation` resolves to, which may
      be `null`; `err` says whether its `err` field is truthy. */
  datatype TxStatus = TxStatus(err: bool)

  /** How the calls to `mintOneToken` and to the confirmation waiter end:
      they resolve with a status, or one of them throws. */
  datatype MintAttempt =
    | Settled(status: Option<TxStatus>)
    | Threw(error: ThrownError)

  /** How the finally block's `getBalance` read ends; its value is only logged. */
  datatype BalanceRead = BalanceOk | BalanceFailed

  /** A write to `isMinting`, `isSoldOut` or the alert, or `CallRefresh`, a
      call to `refreshCandyMachineState`. */
  datatype Write =
    | SetMinting(minting: bool)
    | SetSoldOut(soldOut: bool)
    | SetAlert(alert: AlertState)
    | CallRefresh

  const SuccessText := "Congratulations! Mint succeeded!"
  const TxFailedText := "Mint failed! Please try again!"

  /** The confirmed status counts as a success when it is `null` or its `err`
      is falsy (`!status?.err`). */
  predicate Confirmed(status: Option<TxStatus>)
  {
    status.None? || !status.value.err
  }

  /** The alert `onMint` sets, or `None` when it leaves the alert alone.
      `called` says whether the wallet and the program were both present, so
      that the chain helpers were called at all. */
  function MintAlert(called: bool, attempt: MintAttempt): (r: Option<AlertState>)
    // every alert set by a mint attempt is shown
    ensures r.Some? ==> r.value.open
    // nothing is shown when the helpers were skipped, or when the catch block
    // itself fails
    ensures r.None? <==> !called || (attempt.Threw? && Classify(attempt.error).CatchThrows?)
    // success is reported exactly for a confirmed transaction
    ensures r.Some? && r.value.severity == Some(Success) <==> called && attempt.Settled? && Confirmed(attempt.status)
    ensures r.Some? ==> r.value.severity in {Some(Success), Some(Error)}
    ensures r.Some? && r.value.severity == Some(Success) ==> r.value.message == SuccessText
    // a settled transaction whose status carries an error gets the fixed text
    ensures called && attempt.Settled? && !Confirmed(attempt.status) ==>
      r == Some(AlertState(true, TxFailedText, Some(Error)))
    // a thrown error that the catch block handles is shown with its classified text
    ensures called && attempt.Threw? && Classify(attempt.error).Handled? ==>
      r == Some(AlertState(true, Classify(attempt.error).text, Some(Error)))
  {
    if !called then None
    else match attempt
      case Settled(status) =>
        if Confirmed(status) then Some(AlertState(true, SuccessText, Some(Success)))
        else Some(AlertState(true, TxFailedText, Some(Error)))
      case Threw(e) =>
        match Classify(e)
        case Handled(text, _) => Some(AlertState(true, text, Some(Error)))
        case CatchThrows => None
  }

  /** Whether `onMint` latches `isSoldOut` to true in its catch block. */
  predicate MintLatchesSoldOut(called: bool, attempt: MintAttempt)
  {
    called && attempt.Threw? && Classify(attempt.error).Handled? && Classify(attempt.error).latchSoldOut
  }

  /** The finally block reads the wallet's balance before it lowers
      `isMinting`; when that read rejects, the rest of the block is skipped.
      Without a wallet there is no read. */
  predicate FinallyCompletes(wallet: bool, balance: BalanceRead)
  {
    !wallet || balance.BalanceOk?
  }

  /** The writes of one call to `refreshCandyMachineState`: the call itself,
      then, when a wallet is present and the chain read resolves, the
      recomputed `isSoldOut`. */
  function RefreshWrites(wallet: bool, read: ChainRead): seq<Write>
  {
    [CallRefresh]
    + (if wallet && read.ReadOk? then [SetSoldOut(read.snapshot.itemsRemaining == 0)] else [])
  }

  /** The writes of the try and catch blocks of `onMint` after `isMinting` is
      raised: the catch block's sold-out latch, then the alert. */
  function TryWrites(called: bool, attempt: MintAttempt): seq<Write>
  {
    (if MintLatchesSoldOut(called, attempt) then [SetSoldOut(true)] else [])
    + (match MintAlert(called, attempt) case Some(a) => [SetAlert(a)] case None => [])
  }

  /** The writes of one call to `onMint`, first to last: raise `isMinting`,
      the try and catch blocks, then the finally block, which lowers
      `isMinting` and refreshes only when its balance read resolves.
      `hasProgram` is `candyMachine?.program` when the call starts. */
  function MintWrites(wallet: bool, hasProgram: bool, attempt: MintAttempt,
                      balance: BalanceRead, read: ChainRead): seq<Write>
  {
    [SetMinting(true)]
    + TryWrites(wallet && hasProgram, attempt)
    + (if FinallyCompletes(wallet, balance) then [SetMinting(false)] + RefreshWrites(wallet, read) else [])
  }

  predicate IsRefresh(w: Write) { w.CallRefresh? }
  predicate IsAlert(w: Write) { w.SetAlert? }
  predicate IsMintingWrite(w: Write) { w.SetMinting? }
  predicate IsSoldOutWrite(w: Write) { w.SetSoldOut? }

  /** The number of writes in `ws` that satisfy `p`. */
  function Count(ws: seq<Write>, p: Write -> bool): nat
  {
    if ws == [] then 0 else (if p(ws[0]) then 1 else 0) + Count(ws[1..], p)
  }

  lemma {:induction false} CountAppend(a: seq<Write>, b: seq<Write>, p: Write -> bool)
    ensures Count(a + b, p) == Count(a, p) + Count(b, p)
  {
    if a == [] {
      assert a + b == b;
    } else {
      assert (a + b)[1..] == a[1..] + b;
      CountAppend(a[1..], b, p);
    }
  }

  /** Count of a list of at most two writes. */
  lemma CountShort(ws: seq<Write>, p: Write -> bool)
    requires |ws| <= 2
    ensures Count(ws, p) == (if |ws| >= 1 && p(ws[0]) then 1 else 0) + (if |ws| == 2 && p(ws[1]) then 1 else 0)
  {
    if ws != [] {
      assert |ws[1..]| <= 1;
      if |ws[1..]| == 1 { assert ws[1..][1..] == []; }
    }
  }

  /** The most recent write in `ws` that satisfies `p`, if any. */
  function Latest(ws: seq<Write>, p: Write -> bool): Option<Write>
  {
    if ws == [] then None
    else if p(ws[|ws| - 1]) then Some(ws[|ws| - 1])
    else Latest(ws[..|ws| - 1], p)
  }

  /** Latest of a list of at most two writes. */
  lemma LatestShort(ws: seq<Write>, p: Write -> bool)
    requires |ws| <= 2
    ensures Latest(ws, p) ==
      if |ws| == 2 && p(ws[1]) then Some(ws[1])
      else if |ws| >= 1 && p(ws[0]) then Some(ws[0])
      else None
  {
    if |ws| == 2 { assert ws[..1] == [ws[0]]; assert [ws[0]][..0] == []; }
    if |ws| == 1 { assert ws[..0] == []; }
  }

  /** A later write that satisfies `p` hides every earlier one. */
  lemma {:induction false} LatestAppend(a: seq<Write>, b: seq<Write>, p: Write -> bool)
    ensures Latest(a + b, p) == if Latest(b, p).Some? then Latest(b, p) else Latest(a, p)
    decreases |b|
  {
    if b == [] {
      assert a + b == a;
    } else {
      var ab := a + b;
      var init := b[..|b| - 1];
      assert ab[..|ab| - 1] == a + init;
      assert ab[|ab| - 1] == b[|b| - 1];
      assert b[..|b| - 1] == init;
      LatestAppend(a, init, p);
    }
  }

  /** The value of `isMinting` after the writes `ws`, starting from `false`. */
  function MintingAfter(ws: seq<Write>): bool
  {
    match Latest(ws, IsMintingWrite) case Some(SetMinting(b)) => b case _ => false
  }

  /** The value of `isSoldOut` after the writes `ws`, starting from `false`. */
  function SoldOutAfter(ws: seq<Write>): bool
  {
    match Latest(ws, IsSoldOutWrite) case Some(SetSoldOut(b)) => b case _ => false
  }

  const InitialAlert := AlertState(false, "", None)

  /** The alert after the writes `ws`, starting from the closed, empty alert. */
  function AlertAfter(ws: seq<Write>): AlertState
  {
    match Latest(ws, IsAlert) case Some(SetAlert(a)) => a case _ => InitialAlert
  }

  /** Every mint attempt whose finally block completes issues exactly one
      refresh; one whose balance read rejects issues none. */
  lemma MintRefreshesOnce(wallet: bool, hasProgram: bool, attempt: MintAttempt,
                          balance: BalanceRead, read: ChainRead)
    ensures Count(MintWrites(wallet, hasProgram, attempt, balance, read), IsRefresh)
         == if FinallyCompletes(wallet, balance) then 1 else 0
  {
    var p := IsRefresh;
    var t := TryWrites(wallet && hasProgram, attempt);
    var fin := if FinallyCompletes(wallet, balance) then [SetMinting(false)] + RefreshWrites(wallet, read) else [];
    CountAppend([SetMinting(true)] + t, fin, p);
    CountAppend([SetMinting(true)], t, p);
    CountShort([SetMinting(true)], p);
    CountShort(t, p);
    if FinallyCompletes(wallet, balance) {
      var rw := RefreshWrites(wallet, read);
      CountAppend([SetMinting(false)], rw, p);
      CountShort([SetMinting(false)], p);
      CountShort(rw, p);
    }
  }

  /** `isMinting` is raised by the first write and is written again only by
      the finally block, which lowers it just before calling the refresh;
      it is lowered at all exactly when the finally block completes. */
  lemma MintingHeldThroughout(wallet: bool, hasProgram: bool, attempt: MintAttempt,
                              balance: BalanceRead, read: ChainRead)
    ensures var ws := MintWrites(wallet, hasProgram, attempt, balance, read);
      ws[0] == SetMinting(true)
      && (forall i :: 0 < i < |ws| && ws[i].SetMinting? ==>
            ws[i] == SetMinting(false) && i + 1 < |ws| && ws[i + 1] == CallRefresh)
      && (SetMinting(false) in ws <==> FinallyCompletes(wallet, balance))
  {
    var ws := MintWrites(wallet, hasProgram, attempt, balance, read);
    var t := TryWrites(wallet && hasProgram, attempt);
    assert forall i :: 0 <= i < |t| ==> !t[i].SetMinting?;
    assert SetMinting(false) !in [SetMinting(true)] + t;
  }

  /** Whatever `isMinting` was before, the writes of one mint attempt leave it
      `false` exactly when the finally block completes: a rejected balance
      read leaves it `true`, and with it the button disabled. */
  lemma {:induction false} MintLeavesMinting(before: seq<Write>, wallet: bool, hasProgram: bool,
                                             attempt: MintAttempt, balance: BalanceRead, read: ChainRead)
    ensures MintingAfter(before + MintWrites(wallet, hasProgram, attempt, balance, read))
        <==> !FinallyCompletes(wallet, balance)
  {
    var p := IsMintingWrite;
    var t := TryWrites(wallet && hasProgram, attempt);
    var rw := RefreshWrites(wallet, read);
    var ws := MintWrites(wallet, hasProgram, attempt, balance, read);
    LatestAppend(before, ws, p);
    LatestShort(t, p);
    LatestShort(rw, p);
    LatestAppend([SetMinting(true)], t, p);
    LatestShort([SetMinting(true)], p);
    if FinallyCompletes(wallet, balance) {
      LatestAppend([SetMinting(true)] + t, [SetMinting(false)] + rw, p);
      LatestAppend([SetMinting(false)], rw, p);
      LatestShort([SetMinting(false)], p);
    } else {
      assert ws == [SetMinting(true)] + t + [];
      assert ws == [SetMinting(true)] + t;
    }
  }

  /** A mint attempt sets the alert at most once. */
  lemma {:induction false} MintAlertsAtMostOnce(wallet: bool, hasProgram: bool, attempt: MintAttempt,
                                                balance: BalanceRead, read: ChainRead)
    ensures Count(MintWrites(wallet, hasProgram, attempt, balance, read), IsAlert) <= 1
  {
    var p := IsAlert;
    var t := TryWrites(wallet && hasProgram, attempt);
    var fin := if FinallyCompletes(wallet, balance) then [SetMinting(false)] + RefreshWrites(wallet, read) else [];
    CountAppend([SetMinting(true)] + t, fin, p);
    CountAppend([SetMinting(true)], t, p);
    CountShort([SetMinting(true)], p);
    CountShort(t, p);
    if FinallyCompletes(wallet, balance) {
      var rw := RefreshWrites(wallet, read);
      CountAppend([SetMinting(false)], rw, p);
      CountShort([SetMinting(false)], p);
      CountShort(rw, p);
    } else {
      assert fin == [];
    }
  }

  /** The try and catch blocks latch `isSoldOut` only for the structured code
      311; a "SOLD OUT!" alert matched from the message text leaves
      `isSoldOut` alone. */
  lemma SoldOutLatchOnlyOnCode(called: bool, attempt: MintAttempt)
    ensures SetSoldOut(true) in TryWrites(called, attempt)
        <==> called && attempt.Threw? && Truthy(attempt.error.msg) && attempt.error.code == Some(SoldOutCode)
  {
  }

  /** The component's state. The wallet is owned by the wallet adapter and
      is passed to each handler; `hasProgram` stands for `candyMachine?.program`. */
  class Home {
    var isActive: bool
    var isSoldOut: bool
    var isMinting: bool
    var itemsAvailable: int
    var itemsRedeemed: int
    var alertState: AlertState
    var startDate: int
    var hasProgram: bool
    /** Every write to `isMinting`, `isSoldOut` and `alertState`, and every
        call of the refresh, oldest first. */
    ghost var writes: seq<Write>

    /** The log accounts for the current values of the fields it records. */
    ghost predicate Valid()
      reads this
    {
      isMinting == MintingAfter(writes)
      && isSoldOut == SoldOutAfter(writes)
      && alertState == AlertAfter(writes)
    }

    /** The initial `useState` values; `startDate` comes from the page's props. */
    constructor (propsStartDate: int)
      ensures Valid()
      ensures !isActive && !isSoldOut && !isMinting
      ensures itemsAvailable == 0 && itemsRedeemed == 0
      ensures alertState == InitialAlert
      ensures startDate == propsStartDate && !hasProgram
      ensures writes == []
    {
      isActive, isSoldOut, isMinting := false, false, false;
      itemsAvailable, itemsRedeemed := 0, 0;
      alertState := InitialAlert;
      startDate := propsStartDate;
      hasProgram := false;
      writes := [];
    }

    /** `setIsMinting`. */
    method SetIsMinting(b: bool)
      requires Valid()
      modifies this
      ensures Valid()
      ensures writes == old(writes) + [SetMinting(b)]
      ensures isMinting == b
      ensures isActive == old(isActive) && isSoldOut == old(isSoldOut) && alertState == old(alertState)
      ensures itemsAvailable == old(itemsAvailable) && itemsRedeemed == old(itemsRedeemed)
      ensures startDate == old(startDate) && hasProgram == old(hasProgram)
    {
      isMinting := b;
      writes := writes + [SetMinting(b)];
      LatestAppend(old(writes), [SetMinting(b)], IsMintingWrite);
      LatestAppend(old(writes), [SetMinting(b)], IsSoldOutWrite);
      LatestAppend(old(writes), [SetMinting(b)], IsAlert);
    }

    /** `setIsSoldOut`. */
    method SetIsSoldOut(b: bool)
      requires Valid()
      modifies this
      ensures Valid()
      ensures writes == old(writes) + [SetSoldOut(b)]
      ensures isSoldOut == b
      ensures isActive == old(isActive) && isMinting == old(isMinting) && alertState == old(alertState)
      ensures itemsAvailable == old(itemsAvailable) && itemsRedeemed == old(itemsRedeemed)
      ensures startDate == old(startDate) && hasProgram == old(hasProgram)
    {
      isSoldOut := b;
      writes := writes + [SetSoldOut(b)];
      LatestAppend(old(writes), [SetSoldOut(b)], IsMintingWrite);
      LatestAppend(old(writes), [SetSoldOut(b)], IsSoldOutWrite);
      LatestAppend(old(writes), [SetSoldOut(b)], IsAlert);
    }

    /** `setAlertState`. */
    method SetAlertState(a: AlertState)
      requires Valid()
      modifies this
      ensures Valid()
      ensures writes == old(writes) + [SetAlert(a)]
      ensures alertState == a
      ensures isActive == old(isActive) && isMinting == old(isMinting) && isSoldOut == old(isSoldOut)
      ensures itemsAvailable == old(itemsAvailable) && itemsRedeemed == old(itemsRedeemed)
      ensures startDate == old(startDate) && hasProgram == old(hasProgram)
    {
      alertState := a;
      writes := writes + [SetAlert(a)];
      LatestAppend(old(writes), [SetAlert(a)], IsMintingWrite);
      LatestAppend(old(writes), [SetAlert(a)], IsSoldOutWrite);
      LatestAppend(old(writes), [SetAlert(a)], IsAlert);
    }

    /** Records a call of `refreshCandyMachineState`, which has no state of
        its own to change. */
    method LogRefreshCall()
      requires Valid()
      modifies this
      ensures Valid()
      ensures writes == old(writes) + [CallRefresh]
      ensures isActive == old(isActive) && isMinting == old(isMinting)
      ensures isSoldOut == old(isSoldOut) && alertState == old(alertState)
      ensures itemsAvailable == old(itemsAvailable) && itemsRedeemed == old(itemsRedeemed)
      ensures startDate == old(startDate) && hasProgram == old(hasProgram)
    {
      writes := writes + [CallRefresh];
      LatestAppend(old(writes), [CallRefresh], IsMintingWrite);
      LatestAppend(old(writes), [CallRefresh], IsSoldOutWrite);
      LatestAppend(old(writes), [CallRefresh], IsAlert);
    }

    /** `refreshCandyMachineState`: with no wallet it returns at once; a
        rejected chain read changes nothing either; otherwise the snapshot is
        projected into the state, and `isSoldOut` is recomputed from the
        remaining count, so a refresh can clear it again. */
    method Refresh(wallet: bool, read: ChainRead)
      requires Valid()
      modifies this
      ensures Valid()
      ensures writes == old(writes) + RefreshWrites(wallet, read)
      ensures isActive == old(isActive) && isMinting == old(isMinting) && alertState == old(alertState)
      ensures wallet && read.ReadOk? ==>
        var s := read.snapshot;
        itemsAvailable == s.itemsAvailable && itemsRedeemed == s.itemsRedeemed
        && isSoldOut == (s.itemsRemaining == 0)
        && startDate == s.goLiveDate && hasProgram == s.hasProgram
      ensures !wallet || read.ReadFailed? ==>
        itemsAvailable == old(itemsAvailable) && itemsRedeemed == old(itemsRedeemed)
        && isSoldOut == old(isSoldOut) && startDate == old(startDate) && hasProgram == old(hasProgram)
    {
      LogRefreshCall();
      if !wallet {
        return;
      }
      match read
      case ReadFailed =>
        assert RefreshWrites(wallet, read) == [CallRefresh];
      case ReadOk(s) =>
        itemsAvailable := s.itemsAvailable;
        itemsRedeemed := s.itemsRedeemed;
        SetIsSoldOut(s.itemsRemaining == 0);
        startDate := s.goLiveDate;
        hasProgram := s.hasProgram;
        assert RefreshWrites(wallet, read) == [CallRefresh, SetSoldOut(s.itemsRemaining == 0)];
    }

    /** The try and catch blocks of `onMint` after `isMinting` is raised.
        `called` says whether the wallet and the program are present;
        `catchThrows` says whether the catch block itself throws. */
    method MintTry(called: bool, attempt: MintAttempt) returns (catchThrows: bool)
      requires Valid()
      modifies this
      ensures Valid()
      ensures writes == old(writes) + TryWrites(called, attempt)
      ensures catchThrows <==> called && attempt.Threw? && Classify(attempt.error).CatchThrows?
      ensures alertState ==
        match MintAlert(called, attempt)
        case Some(a) => a
        case None => old(alertState)
      ensures isSoldOut == (old(isSoldOut) || MintLatchesSoldOut(called, attempt))
      ensures isActive == old(isActive) && isMinting == old(isMinting)
      ensures itemsAvailable == old(itemsAvailable) && itemsRedeemed == old(itemsRedeemed)
      ensures startDate == old(startDate) && hasProgram == old(hasProgram)
    {
      catchThrows := false;
      if !called {
        assert TryWrites(called, attempt) == [];
        return;
      }
      match attempt
      case Settled(status) =>
        var a := if Confirmed(status) then AlertState(true, SuccessText, Some(Success))
                 else AlertState(true, TxFailedText, Some(Error));
        SetAlertState(a);
        assert TryWrites(called, attempt) == [SetAlert(a)];
      case Threw(e) =>
        // the catch block
        match Classify(e)
        case CatchThrows =>
          catchThrows := true;
          assert TryWrites(called, attempt) == [];
        case Handled(text, latch) =>
          if latch {
            SetIsSoldOut(true);
          }
          var a := AlertState(true, text, Some(Error));
          SetAlertState(a);
          assert TryWrites(called, attempt) == (if latch then [SetSoldOut(true)] else []) + [SetAlert(a)];
    }

    /** `onMint`. It raises `isMinting`; when the wallet and the program are
        present it mints and awaits confirmation, whose outcome is `attempt`;
        a thrown error goes through the catch block. The finally block reads
        the balance when a wallet is present (`balance`); when that read
        resolves, it lowers `isMinting` and refreshes, the refresh's chain
        read ending as `read`. `rejects` says whether the returned promise
        rejects: when the catch block itself throws, or when the balance read
        rejects, which also leaves `isMinting` raised. */
    method OnMint(wallet: bool, attempt: MintAttempt, balance: BalanceRead, read: ChainRead)
      returns (rejects: bool)
      requires Valid()
      modifies this
      ensures Valid()
      ensures writes == old(writes) + MintWrites(wallet, old(hasProgram), attempt, balance, read)
      ensures isMinting <==> !FinallyCompletes(wallet, balance)
      ensures isActive == old(isActive)
      ensures alertState ==
        match MintAlert(wallet && old(hasProgram), attempt)
        case Some(a) => a
        case None => old(alertState)
      ensures rejects <==>
        (wallet && old(hasProgram) && attempt.Threw? && Classify(attempt.error).CatchThrows?)
        || !FinallyCompletes(wallet, balance)
      ensures FinallyCompletes(wallet, balance) && wallet && read.ReadOk? ==>
        var s := read.snapshot;
        itemsAvailable == s.itemsAvailable && itemsRedeemed == s.itemsRedeemed
        && isSoldOut == (s.itemsRemaining == 0)
        && startDate == s.goLiveDate && hasProgram == s.hasProgram
      ensures !(FinallyCompletes(wallet, balance) && wallet && read.ReadOk?) ==>
        itemsAvailable == old(itemsAvailable) && itemsRedeemed == old(itemsRedeemed)
        && isSoldOut == (old(isSoldOut) || MintLatchesSoldOut(wallet && old(hasProgram), attempt))
        && startDate == old(startDate) && hasProgram == old(hasProgram)
    {
      var called := wallet && hasProgram;
      ghost var ws := MintWrites(wallet, hasProgram, attempt, balance, read);
      ghost var t := TryWrites(called, attempt);
      SetIsMinting(true);
      // awaiting the mint and its confirmation, the attempt is in flight
      assert isMinting;
      rejects := MintTry(called, attempt);
      ghost var afterTry := writes;
      assert afterTry == old(writes) + ([SetMinting(true)] + t);
      // the finally block; awaiting the balance read, the attempt is still in flight
      assert isMinting;
      if wallet && balance.BalanceFailed? {
        assert !FinallyCompletes(wallet, balance);
        assert ws == [SetMinting(true)] + t + [];
        assert writes == old(writes) + ws;
        rejects := true;
        return;
      }
      SetIsMinting(false);
      Refresh(wallet, read);
      assert ws == ([SetMinting(true)] + t) + ([SetMinting(false)] + RefreshWrites(wallet, read));
      assert FinallyCompletes(wallet, balance);
      assert writes == afterTry + ([SetMinting(false)] + RefreshWrites(wallet, read));
      assert writes == old(writes) + ws;
    }

    /** The countdown's `onMount`: activates the sale when the countdown is
        already complete at mount. */
    method OnCountdownMount(completed: bool)
      requires Valid()
      modifies this
      ensures Valid()
      ensures isActive == (old(isActive) || completed)
      ensures isSoldOut == old(isSoldOut) && isMinting == old(isMinting) && alertState == old(alertState)
      ensures itemsAvailable == old(itemsAvailable) && itemsRedeemed == old(itemsRedeemed)
      ensures startDate == old(startDate) && hasProgram == old(hasProgram) && writes == old(writes)
    {
      if completed {
        isActive := true;
      }
    }

    /** The countdown's `onComplete`: activates the sale. */
    method OnCountdownComplete()
      requires Valid()
      modifies this
      ensures Valid()
      ensures isActive
      ensures isSoldOut == old(isSoldOut) && isMinting == old(isMinting) && alertState == old(alertState)
      ensures itemsAvailable == old(itemsAvailable) && itemsRedeemed == old(itemsRedeemed)
      ensures startDate == old(startDate) && hasProgram == old(hasProgram) && writes == old(writes)
    {
      isActive := true;
    }

    /** The snackbar's and the alert's `onClose`: hides the alert and keeps
        its message and severity. */
    method CloseAlert()
      requires Valid()
      modifies this
      ensures Valid()
      ensures alertState == old(alertState).(open := false)
      ensures writes == old(writes) + [SetAlert(old(alertState).(open := false))]
      ensures isActive == old(isActive) && isSoldOut == old(isSoldOut) && isMinting == old(isMinting)
      ensures itemsAvailable == old(itemsAvailable) && itemsRedeemed == old(itemsRedeemed)
      ensures startDate == old(startDate) && hasProgram == old(hasProgram)
    {
      SetAlertState(alertState.(open := false));
    }
  }
}
