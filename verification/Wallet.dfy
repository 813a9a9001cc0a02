/**
 * The vote-allocation wallet of imports/ui/modules/Wallet.js: how many votes a
 * user allocates to a contract or a delegate, and the slider that shows it.
 *
 * What the wallet reads from the rendered page (the widths of the slider and of
 * the bar, whether the bar and the handle are shown) is passed in as a `Page`.
 * The data-store lookups behind `getTargetType` and `userVotesInContract` are
 * constructor parameters.
 */
module VoteWallet {
  import opened Wrappers
  import opened JsNumber

  datatype Mode = Pending | Executed

  datatype TargetType = Vote | Delegation | Unknown

  /** One finalised allocation on a ledger. */
  datatype LedgerEntry = LedgerEntry(entityId: string, quantity: int)

  /** The wallet record a user profile may hold, copied into a new wallet. */
  datatype Snapshot = Snapshot(
    address: seq<string>,
    ledger: seq<LedgerEntry>,
    available: int,
    balance: int,
    placed: int,
    currency: string)

  /**
   * The page as the wallet measures it: the width of `#voteSlider-<id>` and of
   * `#voteBar-<id>` (NaN when the element is missing), and whether
   * `#voteBar-<id>` and `#voteHandle-<id>` have an offset.
   */
  datatype Page = Page(sliderWidth: Num, barWidth: Num, barShown: bool, handleShown: bool)

  /** `getTargetType`: a contract id is a vote, a user id a delegation. */
  function TargetTypeOf(isContract: bool, isUser: bool): (t: TargetType)
    ensures t == Vote <==> isContract
    ensures t == Delegation <==> !isContract && isUser
    ensures t == Unknown <==> !isContract && !isUser
  {
    if isContract then Vote else if isUser then Delegation else Unknown
  }

  /**
   * `_scope(value, max, min)`: saturate `value` into `[min, max]`, `min`
   * defaulting to 0. The lower bound is tested first, so it wins when the
   * bounds cross; NaN compares false both ways and passes through.
   */
  function Scope(value: Num, max: Num, min: Option<Num>): (r: Num)
    ensures var lower := min.GetOr(Finite(0.0));
      && (value.NaN? ==> r.NaN?)
      && (Less(value, lower) ==> r == lower)
      && (!Less(value, lower) && Less(max, value) ==> r == max)
      && (!Less(value, lower) && !Less(max, value) ==> r == value)
      && (lower.Finite? && max.Finite? && lower.value <= max.value && !value.NaN? ==>
            r.Finite? && lower.value <= r.value <= max.value)
      && (value.Finite? && lower.Finite? && max.Finite? && lower.value <= value.value <= max.value ==>
            r == value)
  {
    var lower := min.GetOr(Finite(0.0));
    if Less(value, lower) then lower
    else if Less(max, value) then max
    else value
  }

  /** An allocation that respects the wallet invariant: a whole number in `[0, bound]`. */
  predicate Within(n: Num, bound: int) {
    IsInteger(n) && 0.0 <= n.value <= bound as real
  }

  /** A whole number of votes in `[0, bound]` respects the bound. */
  lemma WithinWhole(n: int, bound: int)
    requires 0 <= n <= bound
    ensures Within(FromInt(n), bound)
  {
    assert (n as real).Floor == n;
  }

  /**
   * The quantity `allocateVotes` stores: `parseInt(_scope(quantity, available + inBallot), 10)`.
   */
  function Clamped(quantity: Num, available: int, inBallot: int): (r: Num)
    ensures quantity.NaN? ==> r.NaN?
    ensures !quantity.NaN? && 0 <= available + inBallot ==> Within(r, available + inBallot)
    ensures quantity.Finite? && 0.0 <= quantity.value <= (available + inBallot) as real ==>
              r == FromInt(Truncate(quantity.value))
    ensures Less(quantity, FromInt(0)) ==> r == FromInt(0)
    ensures !Less(quantity, FromInt(0)) && Less(FromInt(available + inBallot), quantity) ==>
              r == FromInt(available + inBallot)
  {
    ParseIntWhole(0);
    ParseIntWhole(available + inBallot);
    ParseInt(Scope(quantity, FromInt(available + inBallot), None))
  }

  /**
   * The vote count `sliderInput` derives from the rendered slider:
   * the slider width saturated into `[0, maxWidth]`, scaled from the bar width
   * to the balance, truncated and saturated into `[0, available + inBallot]`.
   */
  function PixelsToVotes(page: Page, maxWidth: Num, balance: int, available: int, inBallot: int): (r: Num)
    ensures r.NaN? || IsInteger(r)
    ensures 0 <= available + inBallot && !r.NaN? ==> Within(r, available + inBallot)
    ensures page.sliderWidth.Finite? && maxWidth.Finite? && page.barWidth.Finite? && page.barWidth.value != 0.0 ==>
              !r.NaN?
    ensures page.sliderWidth.Finite? && maxWidth.Finite? && page.barWidth == Finite(0.0) ==> r.NaN?
  {
    var shown := Scope(page.sliderWidth, maxWidth, Some(FromInt(0)));
    Scope(ParseInt(Div(Mul(shown, FromInt(balance)), page.barWidth)), FromInt(available + inBallot), Some(FromInt(0)))
  }

  /**
   * The slider width `sliderInput` sets once the bar is shown: the initial width
   * moved by `pixels` and saturated into `[0, maxWidth]`, or 0 without a handle.
   */
  function SliderTarget(initial: Num, pixels: Num, maxWidth: Num, handleShown: bool): (r: Num)
    ensures !handleShown ==> r == FromInt(0)
    ensures handleShown && maxWidth.Finite? && 0.0 <= maxWidth.value && !Add(initial, pixels).NaN? ==>
              r.Finite? && 0.0 <= r.value <= maxWidth.value
    ensures handleShown && initial.Finite? && pixels.Finite? && maxWidth.Finite? &&
            0.0 <= initial.value + pixels.value <= maxWidth.value ==>
              r == Finite(initial.value + pixels.value)
    ensures handleShown && Less(Add(initial, pixels), FromInt(0)) ==> r == FromInt(0)
    ensures handleShown && !Less(Add(initial, pixels), FromInt(0)) && Less(maxWidth, Add(initial, pixels)) ==>
              r == maxWidth
    ensures handleShown && !Less(Add(initial, pixels), FromInt(0)) && !Less(maxWidth, Add(initial, pixels)) ==>
              r == Add(initial, pixels)
  {
    if handleShown then Scope(Add(initial, pixels), maxWidth, Some(FromInt(0))) else FromInt(0)
  }

  /**
   * The offset `allocateVotes` hands to `sliderInput` to follow a new
   * allocation: the allocation's share of `available` as a width of the
   * slider's range, less the rendered width scaled the other way, to votes.
   */
  function SyncOffset(rendered: Num, available: int, maxWidth: Num, allocation: Num): Num {
    Sub(Div(Mul(maxWidth, allocation), FromInt(available)), Div(Mul(rendered, FromInt(available)), maxWidth))
  }

  /**
   * The widest the slider may grow: the bar less the whole percentage of the
   * balance that is placed outside this target.
   */
  function MaxWidthFor(barWidth: Num, placed: int, inBallot: int, balance: int): (r: Num)
    ensures balance == 0 ==> r.NaN?
  {
    var percent := ParseInt(Div(FromInt((placed - inBallot) * 100), FromInt(balance)));
    Sub(barWidth, Div(Mul(barWidth, percent), FromInt(100)))
  }

  /**
   * The slider width `resetSlider` starts from: the in-ballot share of the
   * balance, as a percentage with two decimals, applied to the bar and truncated.
   */
  function InitialWidth(barWidth: Num, inBallot: int, balance: int): (r: Num)
    ensures balance == 0 ==> r.NaN?
    ensures r.NaN? || IsInteger(r)
  {
    var percent := ToFixed2(Div(FromInt(inBallot * 100), FromInt(balance)));
    ParseInt(Div(Mul(barWidth, percent), FromInt(100)))
  }

  /** The index of the first ledger entry of `userId`, scanning in index order. */
  function FirstVote(ledger: seq<LedgerEntry>, userId: string): (r: Option<nat>)
    ensures r.Some? ==> r.value < |ledger| && ledger[r.value].entityId == userId &&
                        forall j :: 0 <= j < r.value ==> ledger[j].entityId != userId
    ensures r.None? <==> forall j :: 0 <= j < |ledger| ==> ledger[j].entityId != userId
  {
    if ledger == [] then None
    else if ledger[0].entityId == userId then Some(0)
    else match FirstVote(ledger[1..], userId)
      case Some(j) => Some(j + 1)
      case None => None
  }

  class Wallet {
    var address: seq<string>
    var ledger: seq<LedgerEntry>
    var available: int
    var balance: int
    var placed: int
    var inBallot: int
    var currency: string
    var enabled: bool
    var mode: Mode
    var targetId: string
    var targetType: TargetType
    var voteId: string
    var initialSliderWidth: Num
    var sliderWidth: Num
    var maxWidth: Num
    var allocateQuantity: Num
    var allocatePercentage: Num
    var placedPercentage: Num

    /** The wallet invariant: the allocation is a whole number in `[0, available + inBallot]`. */
    predicate AllocationWithin()
      reads this
    {
      Within(allocateQuantity, available + inBallot)
    }

    /**
     * The fields the constructor sets before it resets the slider: the
     * snapshot's fields or the zero defaults, the ballot votes, enabled and
     * pending, the target and its type, the vote id and the maximum width.
     */
    ghost predicate Loaded(snapshot: Option<Snapshot>, targetId: string, sessionId: Option<string>,
                           votesInContract: int, isContract: bool, isUser: bool, barWidth: Num)
      reads this`address, this`ledger, this`available, this`balance, this`placed, this`currency,
            this`inBallot, this`enabled, this`mode, this`targetId, this`targetType, this`voteId, this`maxWidth
    {
      var w := snapshot.GetOr(Snapshot([], [], 0, 0, 0, "VOTES"));
      && address == w.address && ledger == w.ledger && available == w.available
      && balance == w.balance && placed == w.placed && currency == w.currency
      && inBallot == votesInContract && enabled && mode == Pending
      && this.targetId == targetId && targetType == TargetTypeOf(isContract, isUser)
      && voteId == sessionId.GetOr(targetId)
      && maxWidth == MaxWidthFor(barWidth, placed, inBallot, balance)
    }

    /** The slider as `resetSlider` leaves it: at the in-ballot width of the bar. */
    ghost predicate SliderReset(page: Page)
      reads this
    {
      initialSliderWidth == InitialWidth(page.barWidth, inBallot, balance) && sliderWidth == initialSliderWidth
    }

    /**
     * The allocation `resetSlider` leaves on an enabled wallet: the in-ballot
     * votes, clamped (and unchanged when the counts are not negative), and
     * both percentages of the balance.
     */
    ghost predicate AllocationReset()
      reads this
    {
      && allocateQuantity == Clamped(FromInt(inBallot), available, inBallot)
      && allocatePercentage == Div(FromInt(inBallot * 100), FromInt(balance))
      && placedPercentage == Div(FromInt(placed * 100), FromInt(balance))
      && (0 <= inBallot && 0 <= available ==> allocateQuantity == FromInt(inBallot) && AllocationWithin())
    }

    /**
     * A wallet for `targetId`, copied from `snapshot` or starting from zero,
     * with the slider reset to the votes already in the ballot.
     */
    constructor (snapshot: Option<Snapshot>, targetId: string, sessionId: Option<string>,
                 votesInContract: int, isContract: bool, isUser: bool, page: Page)
      ensures Loaded(snapshot, targetId, sessionId, votesInContract, isContract, isUser, page.barWidth)
      ensures SliderReset(page) && AllocationReset()
    {
      var w := snapshot.GetOr(Snapshot([], [], 0, 0, 0, "VOTES"));
      address, ledger, available, balance, placed, currency :=
        w.address, w.ledger, w.available, w.balance, w.placed, w.currency;
      enabled := true;
      mode := Pending;
      inBallot := votesInContract;
      this.targetId := targetId;
      targetType := TargetTypeOf(isContract, isUser);
      voteId := sessionId.GetOr(targetId);
      initialSliderWidth := page.sliderWidth;
      sliderWidth := page.sliderWidth;
      maxWidth := MaxWidthFor(page.barWidth, w.placed, votesInContract, w.balance);
      // undefined until resetSlider allocates
      allocateQuantity, allocatePercentage, placedPercentage := NaN, NaN, NaN;
      new;
      assert Loaded(snapshot, targetId, sessionId, votesInContract, isContract, isUser, page.barWidth);
      ResetSlider(page);
    }

    /**
     * `allocateVotes(quantity, avoidSlider)`: when enabled, store the clamped
     * quantity and the two percentages; unless `avoidSlider`, move the slider
     * to match, telling `sliderInput` not to allocate back.
     */
    method AllocateVotes(quantity: Num, avoidSlider: bool, page: Page)
      modifies this`allocateQuantity, this`allocatePercentage, this`placedPercentage, this`sliderWidth
      decreases if avoidSlider then 0 else 1
      ensures enabled ==>
                && allocateQuantity == Clamped(quantity, available, inBallot)
                && allocatePercentage == Div(Mul(quantity, FromInt(100)), FromInt(balance))
                && placedPercentage == Div(FromInt(placed * 100), FromInt(balance))
      ensures !enabled ==>
                && allocateQuantity == old(allocateQuantity)
                && allocatePercentage == old(allocatePercentage)
                && placedPercentage == old(placedPercentage)
      ensures sliderWidth ==
                if !avoidSlider && page.barShown
                then SliderTarget(initialSliderWidth, SyncOffset(page.sliderWidth, available, maxWidth, allocateQuantity),
                                  maxWidth, page.handleShown)
                else old(sliderWidth)
      ensures enabled && !quantity.NaN? && 0 <= available + inBallot ==> AllocationWithin()
      ensures !enabled && old(AllocationWithin()) ==> AllocationWithin()
    {
      if enabled {
        placedPercentage := Div(FromInt(placed * 100), FromInt(balance));
        allocatePercentage := Div(Mul(quantity, FromInt(100)), FromInt(balance));
        allocateQuantity := Clamped(quantity, available, inBallot);
      }
      if !avoidSlider {
        SliderInput(Some(SyncOffset(page.sliderWidth, available, maxWidth, allocateQuantity)), true, page);
      }
    }

    /**
     * `sliderInput(pixels, avoidAllocation)`: once the bar is shown, move the
     * slider by `pixels` (0 when missing) and, unless `avoidAllocation`,
     * allocate the votes the rendered slider stands for, telling
     * `allocateVotes` not to move the slider back.
     */
    method SliderInput(pixels: Option<Num>, avoidAllocation: bool, page: Page)
      modifies this`allocateQuantity, this`allocatePercentage, this`placedPercentage, this`sliderWidth
      decreases if avoidAllocation then 0 else 1
      ensures !page.barShown ==> sliderWidth == old(sliderWidth)
      ensures page.barShown ==>
                sliderWidth == SliderTarget(initialSliderWidth, pixels.GetOr(FromInt(0)), maxWidth, page.handleShown)
      ensures page.barShown && !avoidAllocation && enabled ==>
                var votes := PixelsToVotes(page, maxWidth, balance, available, inBallot);
                && allocateQuantity == Clamped(votes, available, inBallot)
                && allocatePercentage == Div(Mul(votes, FromInt(100)), FromInt(balance))
                && placedPercentage == Div(FromInt(placed * 100), FromInt(balance))
      ensures !page.barShown || avoidAllocation || !enabled ==>
                && allocateQuantity == old(allocateQuantity)
                && allocatePercentage == old(allocatePercentage)
                && placedPercentage == old(placedPercentage)
      ensures (&& old(AllocationWithin())
               && page.sliderWidth.Finite? && maxWidth.Finite?
               && page.barWidth.Finite? && page.barWidth.value != 0.0) ==> AllocationWithin()
    {
      var offset := pixels.GetOr(FromInt(0));
      if page.barShown {
        if page.handleShown {
          sliderWidth := Scope(Add(initialSliderWidth, offset), maxWidth, Some(FromInt(0)));
        } else {
          sliderWidth := FromInt(0);
        }
        if !avoidAllocation {
          AllocateVotes(PixelsToVotes(page, maxWidth, balance, available, inBallot), true, page);
          if page.sliderWidth.Finite? && maxWidth.Finite? && page.barWidth.Finite? && page.barWidth.value != 0.0 {
            if 0 <= available + inBallot {
              SliderAllocationWithin(page, maxWidth, balance, available, inBallot);
            }
          }
        }
      }
    }

    /**
     * `sliderPercentage()`: recompute the allocated percentage and re-apply the
     * current allocation, which leaves an allocation within bounds as it is.
     */
    method SliderPercentage(page: Page)
      modifies this`allocateQuantity, this`allocatePercentage, this`placedPercentage, this`sliderWidth
      ensures enabled ==> allocateQuantity == Clamped(old(allocateQuantity), available, inBallot)
      ensures enabled && Within(old(allocateQuantity), available + inBallot) ==>
                allocateQuantity == old(allocateQuantity)
      ensures enabled ==> allocatePercentage == Div(Mul(old(allocateQuantity), FromInt(100)), FromInt(balance))
      ensures enabled ==> placedPercentage == Div(FromInt(placed * 100), FromInt(balance))
      ensures !enabled ==>
                && allocateQuantity == old(allocateQuantity)
                && allocatePercentage == ParseInt(Div(Mul(old(allocateQuantity), FromInt(100)), FromInt(balance)))
                && placedPercentage == old(placedPercentage)
      ensures sliderWidth ==
                if page.barShown
                then SliderTarget(initialSliderWidth, SyncOffset(page.sliderWidth, available, maxWidth, allocateQuantity),
                                  maxWidth, page.handleShown)
                else old(sliderWidth)
      ensures old(AllocationWithin()) ==> AllocationWithin()
    {
      allocatePercentage := ParseInt(Div(Mul(allocateQuantity, FromInt(100)), FromInt(balance)));
      AllocateVotes(allocateQuantity, false, page);
      if enabled && Within(old(allocateQuantity), available + inBallot) {
        ClampKeepsAllocation(old(allocateQuantity), available, inBallot);
      }
    }

    /**
     * `resetSlider()`: put the slider at the in-ballot share of the bar and
     * allocate the in-ballot votes without moving the slider again.
     */
    method ResetSlider(page: Page)
      modifies this`initialSliderWidth, this`allocateQuantity, this`allocatePercentage, this`placedPercentage,
               this`sliderWidth
      ensures SliderReset(page)
      ensures enabled ==> AllocationReset()
      ensures !enabled ==>
                && allocateQuantity == old(allocateQuantity)
                && allocatePercentage == old(allocatePercentage)
                && placedPercentage == old(placedPercentage)
    {
      initialSliderWidth := InitialWidth(page.barWidth, inBallot, balance);
      sliderWidth := initialSliderWidth;
      AllocateVotes(FromInt(inBallot), true, page);
      assert Mul(FromInt(inBallot), FromInt(100)) == FromInt(inBallot * 100);
      if enabled && 0 <= inBallot && 0 <= available {
        WithinWhole(inBallot, available + inBallot);
        ClampKeepsAllocation(FromInt(inBallot), available, inBallot);
      }
    }
  }

  /**
   * `verifyVote(ledger, userId)`: whether the user has a ledger entry. On the
   * first match the session wallet, when there is one, takes the recorded
   * quantity and is marked executed; on a miss nothing changes.
   */
  method VerifyVote(ledger: seq<LedgerEntry>, userId: string, session: Wallet?) returns (voted: bool)
    modifies session
    ensures voted <==> exists j :: 0 <= j < |ledger| && ledger[j].entityId == userId
    ensures voted <==> FirstVote(ledger, userId).Some?
    ensures voted && session != null ==>
              var entry := ledger[FirstVote(ledger, userId).value];
              && session.mode == Executed
              && session.allocateQuantity == FromInt(entry.quantity)
              && session.allocatePercentage == ParseInt(Div(FromInt(entry.quantity * 100), FromInt(session.balance)))
    ensures session != null ==>
              && session.address == old(session.address) && session.ledger == old(session.ledger)
              && session.available == old(session.available) && session.balance == old(session.balance)
              && session.placed == old(session.placed) && session.inBallot == old(session.inBallot)
              && session.currency == old(session.currency) && session.enabled == old(session.enabled)
              && session.targetId == old(session.targetId) && session.targetType == old(session.targetType)
              && session.voteId == old(session.voteId)
              && session.initialSliderWidth == old(session.initialSliderWidth)
              && session.sliderWidth == old(session.sliderWidth) && session.maxWidth == old(session.maxWidth)
              && session.placedPercentage == old(session.placedPercentage)
    ensures !voted && session != null ==> unchanged(session)
  {
    var i := 0;
    while i < |ledger|
      invariant 0 <= i <= |ledger|
      invariant forall j :: 0 <= j < i ==> ledger[j].entityId != userId
    {
      if ledger[i].entityId == userId {
        if session != null {
          var quantity := ledger[i].quantity;
          session.allocatePercentage := ParseInt(Div(FromInt(quantity * 100), FromInt(session.balance)));
          session.allocateQuantity := FromInt(quantity);
          session.mode := Executed;
        }
        return true;
      }
      i := i + 1;
    }
    return false;
  }

  /** No votes are no percent of a balance other than 0. */
  lemma NoSharePercent(balance: int)
    requires balance != 0
    ensures ParseInt(Div(FromInt(0), FromInt(balance))) == Finite(0.0)
  {
    assert 0.0 / balance as real == 0.0;
  }

  /** A share of the balance, times 100, is a percentage. */
  lemma ShareIsPercentage(share: int, balance: int)
    requires 0 < balance && 0 <= share <= balance
    ensures 0.0 <= (share * 100) as real / balance as real <= 100.0
  {
    assert (share * 100) as real <= (balance * 100) as real;
  }

  /** A percentage rounded to two decimals is still a percentage. */
  lemma RoundedPercentage(x: real)
    requires 0.0 <= x <= 100.0
    ensures 0.0 <= ToFixed2(Finite(x)).value <= 100.0
  {
    var scaled := (x * 100.0 + 0.5).Floor;
    assert scaled <= 10000;
  }

  /** Taking a percentage of a width stays within that width. */
  lemma ScaleByPercentage(width: real, percent: real)
    requires 0.0 <= width && 0.0 <= percent <= 100.0
    ensures 0.0 <= width * percent / 100.0 <= width
  {
    assert width * percent <= width * 100.0;
  }

  /** With nothing placed outside this target, the slider may span the whole bar. */
  lemma MaxWidthWholeBar(barWidth: Num, placed: int, inBallot: int, balance: int)
    requires barWidth.Finite? && balance != 0 && placed == inBallot
    ensures MaxWidthFor(barWidth, placed, inBallot, balance) == barWidth
  {
    var percent := ParseInt(Div(FromInt((placed - inBallot) * 100), FromInt(balance)));
    assert percent == Finite(0.0) by {
      assert FromInt((placed - inBallot) * 100) == FromInt(0);
      NoSharePercent(balance);
    }
    var cut := Div(Mul(barWidth, percent), FromInt(100));
    assert cut == Finite(0.0) by {
      assert Mul(barWidth, percent) == Finite(0.0);
    }
    assert Sub(barWidth, cut) == barWidth by {
      assert Negate(cut) == Finite(0.0);
    }
  }

  /**
   * When the votes placed outside this target are a share of the balance, the
   * slider's maximum is a finite width between 0 and the bar's.
   */
  lemma MaxWidthWithinBar(barWidth: Num, placed: int, inBallot: int, balance: int)
    requires barWidth.Finite? && 0.0 <= barWidth.value
    requires 0 < balance && 0 <= placed - inBallot <= balance
    ensures var r := MaxWidthFor(barWidth, placed, inBallot, balance);
      r.Finite? && 0.0 <= r.value <= barWidth.value
  {
    var percent := ParseInt(Div(FromInt((placed - inBallot) * 100), FromInt(balance)));
    WholePercentOfShare(placed - inBallot, balance);
    assert percent.Finite? && 0.0 <= percent.value <= 100.0;
    BarLessBoundedPercent(barWidth, percent);
    var r := Sub(barWidth, Div(Mul(barWidth, percent), FromInt(100)));
    assert r.Finite? && 0.0 <= r.value <= barWidth.value;
    assert MaxWidthFor(barWidth, placed, inBallot, balance) == r;
  }

  /** A bar less at most all of itself keeps between none and all of its width. */
  lemma BarLessBoundedPercent(barWidth: Num, percent: Num)
    requires barWidth.Finite? && 0.0 <= barWidth.value
    requires percent.Finite? && 0.0 <= percent.value <= 100.0
    ensures var r := Sub(barWidth, Div(Mul(barWidth, percent), FromInt(100)));
      r.Finite? && 0.0 <= r.value <= barWidth.value
  {
    assert percent == Finite(percent.value);
    BarLessPercent(barWidth, percent.value);
    RemainingWidth(barWidth.value, percent.value);
  }

  /** A width less a percentage of itself, as a real. */
  lemma RemainingWidth(width: real, percent: real)
    requires 0.0 <= width && 0.0 <= percent <= 100.0
    ensures 0.0 <= width - width * percent / 100.0 <= width
  {
    ScaleByPercentage(width, percent);
  }

  /** The whole percentage a share of a positive balance stands for, as `parseInt` reads it. */
  lemma WholePercentOfShare(share: int, balance: int)
    requires 0 < balance && 0 <= share <= balance
    ensures var percent := ParseInt(Div(FromInt(share * 100), FromInt(balance)));
      percent.Finite? && 0.0 <= percent.value <= 100.0
  {
    ShareIsPercentage(share, balance);
  }

  /** A finite bar less `percent` per cent of itself. */
  lemma BarLessPercent(barWidth: Num, percent: real)
    requires barWidth.Finite?
    ensures Sub(barWidth, Div(Mul(barWidth, Finite(percent)), FromInt(100)))
            == Finite(barWidth.value - barWidth.value * percent / 100.0)
  {
  }

  /**
   * When the in-ballot votes are a share of the balance, the reset slider is a
   * whole number of pixels between 0 and the bar's width.
   */
  lemma InitialWidthWithinBar(barWidth: Num, inBallot: int, balance: int)
    requires barWidth.Finite? && 0.0 <= barWidth.value
    requires 0 < balance && 0 <= inBallot <= balance
    ensures var r := InitialWidth(barWidth, inBallot, balance);
      IsInteger(r) && 0.0 <= r.value <= barWidth.value
  {
    var share := (inBallot * 100) as real / balance as real;
    ShareIsPercentage(inBallot, balance);
    assert Div(FromInt(inBallot * 100), FromInt(balance)) == Finite(share);
    RoundedPercentage(share);
    var percent := ToFixed2(Finite(share)).value;
    assert 0.0 <= percent <= 100.0;
    var bar := barWidth.value;
    ScaleByPercentage(bar, percent);
    var width := bar * percent / 100.0;
    assert 0.0 <= width <= bar;
    assert Div(Mul(barWidth, Finite(percent)), FromInt(100)) == Finite(width);
    assert InitialWidth(barWidth, inBallot, balance) == ParseInt(Finite(width));
    assert 0.0 <= ParseInt(Finite(width)).value <= width;
  }

  /** An allocation already within bounds is a fixed point of the clamp. */
  lemma ClampKeepsAllocation(n: Num, available: int, inBallot: int)
    requires Within(n, available + inBallot)
    ensures Clamped(n, available, inBallot) == n
  {
  }

  /** Clamping twice is clamping once, whenever the bound is not negative. */
  lemma ClampIdempotent(quantity: Num, available: int, inBallot: int)
    requires 0 <= available + inBallot
    ensures Clamped(Clamped(quantity, available, inBallot), available, inBallot) == Clamped(quantity, available, inBallot)
  {
    if !quantity.NaN? {
      ClampKeepsAllocation(Clamped(quantity, available, inBallot), available, inBallot);
    }
  }

  /**
   * Allocating from the slider keeps `0 <= allocateQuantity <= available + inBallot`
   * whenever the widths are finite and the bar is not zero wide.
   */
  lemma SliderAllocationWithin(page: Page, maxWidth: Num, balance: int, available: int, inBallot: int)
    requires 0 <= available + inBallot
    requires page.sliderWidth.Finite? && maxWidth.Finite? && page.barWidth.Finite? && page.barWidth.value != 0.0
    ensures var votes := PixelsToVotes(page, maxWidth, balance, available, inBallot);
      && Within(Clamped(votes, available, inBallot), available + inBallot)
      && Clamped(votes, available, inBallot) == votes
  {
    var votes := PixelsToVotes(page, maxWidth, balance, available, inBallot);
    ClampKeepsAllocation(votes, available, inBallot);
  }

  /**
   * The slider-derived votes are the slider's share of the bar applied to the
   * balance, truncated toward zero and saturated into `[0, available + inBallot]`.
   */
  lemma PixelsToVotesValue(page: Page, maxWidth: Num, balance: int, available: int, inBallot: int)
    requires page.sliderWidth.Finite? && maxWidth.Finite? && 0.0 <= page.sliderWidth.value <= maxWidth.value
    requires page.barWidth.Finite? && page.barWidth.value != 0.0
    ensures var r := PixelsToVotes(page, maxWidth, balance, available, inBallot);
      var votes := Truncate(page.sliderWidth.value * balance as real / page.barWidth.value);
      && (0 <= votes <= available + inBallot ==> r == FromInt(votes))
      && (votes < 0 ==> r == FromInt(0))
      && (0 <= votes && available + inBallot < votes ==> r == FromInt(available + inBallot))
  {
    var x := page.sliderWidth.value * balance as real / page.barWidth.value;
    assert Scope(page.sliderWidth, maxWidth, Some(FromInt(0))) == page.sliderWidth;
    assert Mul(page.sliderWidth, FromInt(balance)) == Finite(page.sliderWidth.value * balance as real);
    assert Div(Finite(page.sliderWidth.value * balance as real), page.barWidth) == Finite(x);
    assert ParseInt(Finite(x)) == FromInt(Truncate(x));
  }

  /**
   * For finite widths, a non-zero `available` and a slider range wider than 0,
   * the offset is the allocation's width in the range less the rendered width
   * scaled to votes; with `available` 0 it is not a finite number.
   */
  lemma SyncOffsetValue(rendered: Num, available: int, maxWidth: Num, allocation: Num)
    requires rendered.Finite? && maxWidth.Finite? && allocation.Finite?
    ensures available != 0 && maxWidth.value != 0.0 ==>
              SyncOffset(rendered, available, maxWidth, allocation)
              == Finite(maxWidth.value * allocation.value / available as real
                        - rendered.value * available as real / maxWidth.value)
    ensures available == 0 ==> !SyncOffset(rendered, available, maxWidth, allocation).Finite?
  {
  }

  /**
   * The offset `allocateVotes` computes subtracts a vote count (the rendered
   * width scaled to `available`) from a pixel width: a slider already drawn at
   * 100 of 200 pixels for 5 of 10 votes is moved by 95 pixels, to 195.
   */
  lemma SyncOffsetMixesUnits()
    ensures SyncOffset(Finite(100.0), 10, Finite(200.0), Finite(5.0)) == Finite(95.0)
    ensures SliderTarget(Finite(100.0), Finite(95.0), Finite(200.0), true) == Finite(195.0)
  {
    assert Div(Mul(Finite(200.0), Finite(5.0)), FromInt(10)) == Finite(100.0);
    assert Div(Mul(Finite(100.0), FromInt(10)), Finite(200.0)) == Finite(5.0);
  }

  /**
   * The rendered slider width is clamped to `[0, maxWidth]` before it is
   * turned into votes: the votes are those of the clamped width, to which
   * `PixelsToVotesValue` applies.
   */
  lemma PixelsToVotesClampsWidth(page: Page, maxWidth: Num, balance: int, available: int, inBallot: int)
    requires page.sliderWidth.Finite? && maxWidth.Finite? && 0.0 <= maxWidth.value
    requires page.barWidth.Finite? && page.barWidth.value != 0.0
    ensures var shown := Scope(page.sliderWidth, maxWidth, Some(FromInt(0)));
      && shown.Finite? && 0.0 <= shown.value <= maxWidth.value
      && PixelsToVotes(page, maxWidth, balance, available, inBallot)
         == PixelsToVotes(page.(sliderWidth := shown), maxWidth, balance, available, inBallot)
  {
    var shown := Scope(page.sliderWidth, maxWidth, Some(FromInt(0)));
    assert Scope(shown, maxWidth, Some(FromInt(0))) == shown;
  }

  /**
   * With a balance of 0 the maximum width is NaN, which caps nothing: the
   * slider follows the pointer past the end of the bar.
   */
  lemma NoBalanceUncapped(barWidth: Num, placed: int, inBallot: int, initial: real, pixels: real)
    requires 0.0 <= initial + pixels
    ensures SliderTarget(Finite(initial), Finite(pixels), MaxWidthFor(barWidth, placed, inBallot, 0), true)
            == Finite(initial + pixels)
  {
    var maxWidth := MaxWidthFor(barWidth, placed, inBallot, 0);
    assert maxWidth.NaN?;
    assert !Less(Add(Finite(initial), Finite(pixels)), FromInt(0));
  }

  /** A bar measured zero wide turns the slider allocation into NaN. */
  lemma ZeroWidthBarAllocatesNaN(page: Page, maxWidth: Num, balance: int, available: int, inBallot: int)
    requires page.sliderWidth.Finite? && maxWidth.Finite? && page.barWidth == Finite(0.0)
    ensures Clamped(PixelsToVotes(page, maxWidth, balance, available, inBallot), available, inBallot).NaN?
  {
  }
}
