/** The decision logic of the home screen's food item card: the expiry flags and
    label computed from the day count, and the two confirmation dialogs that stand
    between the card's icons and its delete and mark-consumed callbacks. */
module HomeScreen {
  import opened Numeric
  import opened Text
  import opened Wrappers
  import opened Expiry
  import FoodRepository

  /** `isExpiringSoon`: three days or fewer left, including items already expired;
      it selects the error colour of the label. */
  predicate IsExpiringSoon(days: Int32)
  {
    days <= 3
  }

  /** The card's error-container background: expiring soon but not yet expired. */
  predicate IsHighlighted(days: Int32)
  {
    IsExpiringSoon(days) && days >= 0
  }

  /** In timestamps: an item is expiring soon exactly when it expires less than
      four full days from now. */
  lemma ExpiringSoonIff(expirationDate: Int64, now: Int64)
    requires WithinIntDays(expirationDate, now)
    ensures IsExpiringSoon(DaysUntilExpiration(expirationDate, now)) <==>
      expirationDate - now < 4 * MillisPerDay
  {
    var d := DaysUntilExpiration(expirationDate, now);
    var diff := expirationDate - now;
    if diff >= 0 {
      assert d * MillisPerDay <= diff < d * MillisPerDay + MillisPerDay;
    } else {
      assert d <= 0;
    }
  }

  /** In timestamps: the card is highlighted exactly when the expiration lies less
      than one day in the past and less than four days in the future. */
  lemma HighlightedIff(expirationDate: Int64, now: Int64)
    requires WithinIntDays(expirationDate, now)
    ensures IsHighlighted(DaysUntilExpiration(expirationDate, now)) <==>
      -MillisPerDay < expirationDate - now < 4 * MillisPerDay
  {
    ExpiringSoonIff(expirationDate, now);
    DaysSign(expirationDate, now);
  }

  /** Every item the repository's three-day expiring query returns is flagged as
      expiring soon on its card. */
  lemma ExpiringQueryImpliesSoon(expirationDate: Int64, now: Int64)
    requires WithinIntDays(expirationDate, now)
    requires 0 <= now <= MaxLong / 2
    requires expirationDate <= FoodRepository.ExpiryThreshold(now, 3)
    ensures IsExpiringSoon(DaysUntilExpiration(expirationDate, now))
  {
    ExpiringSoonIff(expirationDate, now);
  }

  /** The converse fails: the card counts whole days, the query milliseconds, so an
      item three and a half days out is flagged on its card but is past the
      query's threshold. */
  lemma SoonFlagWiderThanQuery(now: Int64)
    requires 0 <= now <= MaxLong / 2
    ensures var e := now + 3 * MillisPerDay + MillisPerDay / 2;
      && IsExpiringSoon(DaysUntilExpiration(e, now))
      && e > FoodRepository.ExpiryThreshold(now, 3)
  {
    ExpiringSoonIff(now + 3 * MillisPerDay + MillisPerDay / 2, now);
  }

  /** The card's expiry line. `-days` is an `Int` negation, which wraps for the
      most negative day count. */
  function ExpiryLabel(days: Int32): string
  {
    if days > 0 then "Expires in " + FormatInt(days) + " days"
    else if days == 0 then "Expires today"
    else "Expired " + FormatInt(Wrap32(-(days as int))) + " days ago"
  }

  /** `Int` negation of a negative number: exact, except at the most negative
      value, which is its own negation. */
  lemma NegateNegative(a: Int32)
    requires a < 0
    ensures Wrap32(-(a as int)) == if a == MinInt then MinInt else -(a as int)
  {
    if a == MinInt {
      var w := Wrap32(-(a as int));
      assert (0x8000_0000 - w) % IntModulus == 0;
    }
  }

  /** The character that tells the three label forms apart. */
  lemma LabelForm(days: Int32)
    ensures |ExpiryLabel(days)| > 8
    ensures days > 0 ==> ExpiryLabel(days)[6] == 's' && ExpiryLabel(days)[8] == 'i'
    ensures days == 0 ==> ExpiryLabel(days)[6] == 's' && ExpiryLabel(days)[8] == 't'
    ensures days < 0 ==> ExpiryLabel(days)[6] == 'd'
  {
  }

  /** Distinct day counts get distinct labels, so the label determines the day
      count it was made from. */
  lemma ExpiryLabelInjective(a: Int32, b: Int32)
    requires ExpiryLabel(a) == ExpiryLabel(b)
    ensures a == b
  {
    var la, lb := ExpiryLabel(a), ExpiryLabel(b);
    LabelForm(a);
    LabelForm(b);
    if a > 0 && b > 0 {
      assert la[11..|la| - 5] == FormatInt(a);
      assert lb[11..|lb| - 5] == FormatInt(b);
      FormatIntInjective(a, b);
    } else if a < 0 && b < 0 {
      assert la[8..|la| - 9] == FormatInt(Wrap32(-(a as int)));
      assert lb[8..|lb| - 9] == FormatInt(Wrap32(-(b as int)));
      FormatIntInjective(Wrap32(-(a as int)), Wrap32(-(b as int)));
      NegateNegative(a);
      NegateNegative(b);
    }
  }

  /** The card's two confirmation dialogs. */
  datatype Dialog = DeleteDialog | ConsumedDialog

  /** The card's click handlers: an icon opens its dialog; the dialog's dismiss,
      cancel and confirm each close it, and confirm also fires the callback. */
  datatype CardEvent = TapIcon(dialog: Dialog) | Dismiss(dialog: Dialog) | Cancel(dialog: Dialog) | Confirm(dialog: Dialog)

  /** `showDeleteDialog` and `showConsumedDialog`. */
  datatype CardState = CardState(showDeleteDialog: bool, showConsumedDialog: bool)
  {
    predicate Shown(d: Dialog)
    {
      if d == DeleteDialog then showDeleteDialog else showConsumedDialog
    }

    function With(d: Dialog, shown: bool): (s: CardState)
      ensures s.Shown(d) == shown
      ensures forall e :: e != d ==> s.Shown(e) == Shown(e)
    {
      if d == DeleteDialog then this.(showDeleteDialog := shown) else this.(showConsumedDialog := shown)
    }
  }

  /** Both dialogs start hidden. */
  const InitialCard := CardState(false, false)

  /** The dialog state after one handler. A dialog's buttons exist only while it is
      shown, so a confirm for a hidden dialog cannot happen and changes nothing. */
  function Step(s: CardState, e: CardEvent): CardState
  {
    match e
    case TapIcon(d) => s.With(d, true)
    case Dismiss(d) => s.With(d, false)
    case Cancel(d) => s.With(d, false)
    case Confirm(d) => if s.Shown(d) then s.With(d, false) else s
  }

  /** The callback a handler fires: `onDelete` or `onMarkConsumed`, only from the
      confirm button of a shown dialog. */
  function Fired(s: CardState, e: CardEvent): (r: Option<Dialog>)
    ensures r.Some? <==> e.Confirm? && s.Shown(e.dialog)
    ensures r.Some? ==> r.value == e.dialog
  {
    if e.Confirm? && s.Shown(e.dialog) then Some(e.dialog) else None
  }

  /** The dialog state after a sequence of clicks on a freshly composed card. */
  function Run(events: seq<CardEvent>): CardState
  {
    if events == [] then InitialCard else Step(Run(events[..|events| - 1]), events[|events| - 1])
  }

  /** An event that leaves dialog `d` closed. */
  predicate Closes(e: CardEvent, d: Dialog)
  {
    !e.TapIcon? && e.dialog == d
  }

  /** Dialog `d` was opened by its icon at some point and has not been closed since. */
  predicate OpenedSinceClosed(events: seq<CardEvent>, d: Dialog)
  {
    exists i :: 0 <= i < |events| && events[i] == TapIcon(d) &&
      forall j :: i < j < |events| ==> !Closes(events[j], d)
  }

  /** A dialog is on screen exactly when its icon was tapped and none of its buttons
      (nor a dismissal) has closed it since. */
  lemma {:induction false} ShownIffOpenedSinceClosed(events: seq<CardEvent>, d: Dialog)
    ensures Run(events).Shown(d) <==> OpenedSinceClosed(events, d)
  {
    if events != [] {
      var n := |events| - 1;
      var prefix, last := events[..n], events[n];
      ShownIffOpenedSinceClosed(prefix, d);
      assert Run(events) == Step(Run(prefix), last);
      if last == TapIcon(d) {
        assert events[n] == TapIcon(d);
      } else if Closes(last, d) {
        if OpenedSinceClosed(events, d) {
          var i :| 0 <= i < |events| && events[i] == TapIcon(d) &&
            forall j :: i < j < |events| ==> !Closes(events[j], d);
          assert false;
        }
      } else {
        assert Run(events).Shown(d) == Run(prefix).Shown(d);
        if OpenedSinceClosed(prefix, d) {
          var i :| 0 <= i < |prefix| && prefix[i] == TapIcon(d) &&
            forall j :: i < j < |prefix| ==> !Closes(prefix[j], d);
          assert events[i] == TapIcon(d);
          assert forall j :: i < j < |events| ==> !Closes(events[j], d) by {
            forall j | i < j < |events| ensures !Closes(events[j], d) {
              if j < n {
                assert events[j] == prefix[j];
              }
            }
          }
        }
        if OpenedSinceClosed(events, d) {
          var i :| 0 <= i < |events| && events[i] == TapIcon(d) &&
            forall j :: i < j < |events| ==> !Closes(events[j], d);
          assert i < n;
          assert prefix[i] == TapIcon(d);
          assert forall j :: i < j < |prefix| ==> !Closes(prefix[j], d) by {
            forall j | i < j < |prefix| ensures !Closes(prefix[j], d) {
              assert prefix[j] == events[j];
            }
          }
        }
      }
    }
  }

  /** The delete (or mark-consumed) callback fires exactly on a confirm of that
      dialog after its icon was tapped and nothing has closed the dialog since. */
  lemma CallbackNeedsConfirmedDialog(events: seq<CardEvent>, e: CardEvent, d: Dialog)
    ensures Fired(Run(events), e) == Some(d) <==> e == Confirm(d) && OpenedSinceClosed(events, d)
  {
    ShownIffOpenedSinceClosed(events, d);
  }

  /** `FoodItemCard`'s remembered state and its click handlers. */
  class FoodItemCard {
    var showDeleteDialog: bool
    var showConsumedDialog: bool

    function State(): CardState
      reads this
    {
      CardState(showDeleteDialog, showConsumedDialog)
    }

    constructor ()
      ensures State() == InitialCard
    {
      showDeleteDialog := false;
      showConsumedDialog := false;
    }

    /** The check-mark icon: `showConsumedDialog = true`. */
    method OnConsumedIconClick()
      modifies this
      ensures State() == Step(old(State()), TapIcon(ConsumedDialog))
    {
      showConsumedDialog := true;
    }

    /** The bin icon: `showDeleteDialog = true`. */
    method OnDeleteIconClick()
      modifies this
      ensures State() == Step(old(State()), TapIcon(DeleteDialog))
    {
      showDeleteDialog := true;
    }

    /** Dismissing a dialog, or its Cancel button: the dialog closes and nothing
        fires. */
    method OnDismissOrCancel(d: Dialog)
      modifies this
      ensures State() == Step(old(State()), Dismiss(d)) == Step(old(State()), Cancel(d))
    {
      if d == DeleteDialog {
        showDeleteDialog := false;
      } else {
        showConsumedDialog := false;
      }
    }

    /** The confirm button of a shown dialog: closes it, then fires its callback. */
    method OnConfirm(d: Dialog) returns (fired: Option<Dialog>)
      modifies this
      ensures State() == Step(old(State()), Confirm(d))
      ensures fired == Fired(old(State()), Confirm(d))
    {
      fired := None;
      if d == DeleteDialog && showDeleteDialog {
        showDeleteDialog := false;
        fired := Some(DeleteDialog);
      } else if d == ConsumedDialog && showConsumedDialog {
        showConsumedDialog := false;
        fired := Some(ConsumedDialog);
      }
    }
  }
}
