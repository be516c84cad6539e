/**
 * The credit-card page: the card-number mask of the form, the record built
 * on submit (new card or edit of the selected one), the days until the
 * statement is due, and the colour of the limit-usage bar.
 */
module CreditCards {
  import opened Seqs
  import opened Text
  import opened JsNumber
  import opened CivilDate
  import opened Types
  import opened FinanceContext

  // ------------------------------------------------------ card number mask

  /** The digits cut into groups of four, the last group holding what is left. */
  function Chunks(ds: string): (r: seq<string>)
    ensures ds == [] <==> r == []
    ensures forall i :: 0 <= i < |r| ==> 1 <= |r[i]| <= 4
    ensures forall i :: 0 <= i < |r| - 1 ==> |r[i]| == 4
    decreases |ds|
  {
    if ds == [] then []
    else if |ds| <= 4 then [ds]
    else [ds[..4]] + Chunks(ds[4..])
  }

  /** The groups, put back together, are the digits. */
  lemma {:induction false} ChunksConcat(ds: string)
    ensures Join(Chunks(ds), "") == ds
    decreases |ds|
  {
    if |ds| > 4 {
      ChunksConcat(ds[4..]);
      assert Chunks(ds) == [ds[..4]] + Chunks(ds[4..]);
      JoinCons(ds[..4], Chunks(ds[4..]), "");
      assert ds[..4] + "" + ds[4..] == ds;
    } else if ds != [] {
      assert Chunks(ds)[1..] == [];
    }
  }

  /** digits.slice(i, i + 4): the end is clamped to the length. */
  function SliceFour(ds: string, i: nat): string
    requires i <= |ds|
  {
    if i + 4 <= |ds| then ds[i..i + 4] else ds[i..]
  }

  lemma ChunksStep(ds: string, i: nat)
    requires i < |ds|
    ensures Chunks(ds[i..]) == [SliceFour(ds, i)] + (if i + 4 < |ds| then Chunks(ds[i + 4..]) else [])
  {
    if i + 4 < |ds| {
      assert ds[i..][4..] == ds[i + 4..];
      assert ds[i..][..4] == ds[i..i + 4];
    } else if i + 4 == |ds| {
      assert ds[i..i + 4] == ds[i..];
    }
  }

  /**
   * formatCardNumber: the non-digits are dropped and the digits are written
   * in groups of four separated by single spaces.
   */
  method FormatCardNumber(value: string) returns (formatted: string)
    ensures formatted == Join(Chunks(OnlyDigits(value)), " ")
  {
    var digits := OnlyDigits(value);
    var groups: seq<string> := [];
    var i := 0;
    while i < |digits|
      invariant 0 <= i && i % 4 == 0
      invariant i < |digits| ==> groups + Chunks(digits[i..]) == Chunks(digits)
      invariant i >= |digits| ==> groups == Chunks(digits)
      decreases |digits| - i
    {
      ChunksStep(digits, i);
      groups := groups + [SliceFour(digits, i)];
      i := i + 4;
    }
    if digits == [] {
      assert groups == [];
    }
    formatted := Join(groups, " ");
  }

  lemma {:induction false} FilterJoinChunks(ds: string, p: char -> bool)
    requires forall i :: 0 <= i < |ds| ==> p(ds[i])
    requires !p(' ')
    ensures Filter(Join(Chunks(ds), " "), p) == ds
    decreases |ds|
  {
    var cs := Chunks(ds);
    if |ds| > 4 {
      var rest := Chunks(ds[4..]);
      FilterJoinChunks(ds[4..], p);
      assert cs == [ds[..4]] + rest;
      JoinCons(ds[..4], rest, " ");
      FilterAppend(ds[..4] + " ", Join(rest, " "), p);
      FilterAppend(ds[..4], " ", p);
      FilterAll(ds[..4], p);
      assert Filter(" ", p) == [];
      assert ds[..4] + ds[4..] == ds;
    } else if ds != [] {
      FilterAll(ds, p);
    }
  }

  /** Removing the spaces of the masked number gives back exactly its digits. */
  lemma MaskSpacesOnly(value: string)
    ensures RemoveWhitespace(Join(Chunks(OnlyDigits(value)), " ")) == OnlyDigits(value)
  {
    FilterJoinChunks(OnlyDigits(value), NotWhitespace);
  }

  /** Masking an already masked number changes nothing. */
  lemma MaskIdempotent(value: string)
    ensures var m := Join(Chunks(OnlyDigits(value)), " ");
            Join(Chunks(OnlyDigits(m)), " ") == m
  {
    FilterJoinChunks(OnlyDigits(value), IsDigit);
  }

  /** Sixteen digits fill the input's nineteen characters. */
  lemma {:induction false} MaskLength(ds: string)
    requires ds != []
    ensures |Join(Chunks(ds), " ")| == |ds| + (|ds| - 1) / 4
    decreases |ds|
  {
    if |ds| > 4 {
      MaskLength(ds[4..]);
      JoinCons(ds[..4], Chunks(ds[4..]), " ");
    }
  }

  // ---------------------------------------------------------- submitted card

  /** value.slice(-4): the last four characters, or all of them when there are fewer. */
  function LastFour(s: string): (r: string)
    ensures |r| == if |s| < 4 then |s| else 4
    ensures s == s[..|s| - |r|] + r
  {
    if |s| <= 4 then s else s[|s| - 4..]
  }

  /** The stored last digits: the number without white space, last four characters. */
  function LastDigits(number: string): string
  {
    LastFour(RemoveWhitespace(number))
  }

  /** A freshly masked number yields the last four of its digits. */
  lemma LastDigitsOfMask(value: string)
    ensures LastDigits(Join(Chunks(OnlyDigits(value)), " ")) == LastFour(OnlyDigits(value))
  {
    MaskSpacesOnly(value);
  }

  /**
   * When a card is edited the number field is disabled and holds
   * "**** **** **** " followed by the stored digits, so submitting keeps them.
   */
  lemma {:induction false} EditKeepsLastDigits(ld: string)
    requires |ld| == 4 && forall i :: 0 <= i < 4 ==> !IsWhitespace(ld[i])
    ensures LastDigits("**** **** **** " + ld) == ld
  {
    var mask := "**** **** **** ";
    FilterAppend(mask, ld, NotWhitespace);
    FilterAll(ld, NotWhitespace);
    var kept := Filter(mask, NotWhitespace);
    assert (kept + ld)[|kept + ld| - 4..] == ld;
  }

  /** The card form after the browser's validation: limit and days already parsed. */
  datatype CardForm = CardForm(
    name: string,
    number: string,
    limit: int,
    closingDay: int,
    dueDay: int,
    color: string,
    brand: Brand)

  /**
   * cardData of handleSubmit: the balance of the selected card is kept (0
   * for a new card) and the available limit is the limit minus it.
   */
  function BuildCardData(form: CardForm, selected: Option<CreditCard>): (c: CreditCard)
    ensures c.currentBalance == (if selected.Some? then selected.value.currentBalance else 0)
    ensures LimitConsistent(c)
    ensures c.limit == form.limit && c.closingDay == form.closingDay && c.dueDay == form.dueDay
    ensures c.lastDigits == LastDigits(form.number) && c.name == form.name
    ensures c.color == Some(form.color) && c.brand == Some(form.brand)
  {
    var balance := if selected.Some? then selected.value.currentBalance else 0;
    CreditCard("", form.name, LastDigits(form.number), form.limit, form.closingDay, form.dueDay,
               balance, form.limit - balance, Some(form.color), Some(form.brand))
  }

  /** handleSubmit: an edit replaces the selected card under its id; otherwise a card is added. */
  method HandleSubmit(store: FinanceStore, form: CardForm, selected: Option<CreditCard>, newId: string)
    modifies store
    ensures selected.Some? ==>
              store.creditCards == ReplaceKey(old(store.creditCards), CardId, BuildCardData(form, selected).(id := selected.value.id))
    ensures selected.None? ==>
              store.creditCards == old(store.creditCards) + [BuildCardData(form, selected).(id := newId)]
    ensures store.transactions == old(store.transactions) && store.summary == old(store.summary)
    ensures && store.incomeSources == old(store.incomeSources)
            && store.budgetCategories == old(store.budgetCategories)
            && store.savingsGoals == old(store.savingsGoals)
            && store.notifications == old(store.notifications)
  {
    var cardData := BuildCardData(form, selected);
    if selected.Some? {
      store.UpdateCreditCard(cardData.(id := selected.value.id));
    } else {
      store.AddCreditCard(cardData, newId);
    }
  }

  /** An edit leaves every other card as it was and keeps the balance owed. */
  lemma EditOnlyTouchesSelected(cards: seq<CreditCard>, form: CardForm, sel: CreditCard)
    ensures var c := BuildCardData(form, Some(sel)).(id := sel.id);
            var r := ReplaceKey(cards, CardId, c);
            (forall i :: 0 <= i < |cards| && cards[i].id != sel.id ==> r[i] == cards[i])
            && (forall i :: 0 <= i < |cards| && cards[i].id == sel.id ==>
                  r[i].currentBalance == sel.currentBalance && LimitConsistent(r[i]))
  {
  }

  // --------------------------------------------------------- card overview

  /** The five most recent lines of the details panel: the first five of the card's transactions. */
  function RecentCardTransactions(ts: seq<Transaction>, cardId: string): (r: seq<Transaction>)
    ensures |r| == if |TransactionsByCardId(ts, cardId)| < 5 then |TransactionsByCardId(ts, cardId)| else 5
    ensures r == TransactionsByCardId(ts, cardId)[..|r|]
  {
    Take(TransactionsByCardId(ts, cardId), 5)
  }

  /** The "see all" button appears when the card has more than five transactions. */
  predicate ShowsSeeAll(ts: seq<Transaction>, cardId: string)
  {
    |TransactionsByCardId(ts, cardId)| > 5
  }

  /** daysUntilDue: 0 without a cycle, else whole days from today to the due date. */
  function DaysUntilDue(cards: seq<CreditCard>, ts: seq<Transaction>, cardId: string, now: Instant): int
    requires ValidInstant(now)
  {
    match CurrentBillingCycle(cards, ts, cardId, now)
    case None => 0
    case Some(cycle) => DaysUntil(cycle.dueDate, now)
  }

  predicate IsAlmostDue(days: int)
  {
    days > 0 && days <= 5
  }

  /**
   * A card is flagged as almost due exactly when its due date is one to five
   * days after today; a card the store does not know is never flagged.
   */
  lemma AlmostDueMeaning(cards: seq<CreditCard>, ts: seq<Transaction>, cardId: string, now: Instant)
    requires ValidInstant(now)
    ensures var cycle := CurrentBillingCycle(cards, ts, cardId, now);
            IsAlmostDue(DaysUntilDue(cards, ts, cardId, now)) <==>
              cycle.Some? && DayNumber(now.date) < DayNumber(cycle.value.dueDate) <= DayNumber(now.date) + 5
  {
  }

  datatype UsageColor = Red | Amber | Green

  /** balance / limit: the share of the limit in use. */
  function Usage(c: CreditCard): Num
  {
    Div(c.currentBalance as real, c.limit as real)
  }

  /** The bar colour: red above 80% use, amber above 60%, green otherwise. */
  function UsageColorOf(c: CreditCard): UsageColor
  {
    if Gt(Usage(c), 0.8) then Red else if Gt(Usage(c), 0.6) then Amber else Green
  }

  /** The bar width: Math.min(100, usage * 100). */
  function UsageWidth(c: CreditCard): Num
  {
    Min(Percent(c.currentBalance, c.limit), 100.0)
  }

  /** With a positive limit the colour thresholds are 4/5 and 3/5 of the limit. */
  lemma UsageColorThresholds(c: CreditCard)
    requires c.limit > 0
    ensures UsageColorOf(c) == Red <==> 5 * c.currentBalance > 4 * c.limit
    ensures UsageColorOf(c) == Amber <==> 5 * c.currentBalance > 3 * c.limit && 5 * c.currentBalance <= 4 * c.limit
    ensures UsageColorOf(c) == Green <==> 5 * c.currentBalance <= 3 * c.limit
  {
    DivCompare(c.currentBalance as real, c.limit as real, 0.8);
    DivCompare(c.currentBalance as real, c.limit as real, 0.6);
  }

  /**
   * A zero limit: any balance owed shows red (the ratio is Infinity), and a
   * zero balance shows green with no valid width (the ratio is NaN).
   */
  lemma UsageZeroLimit(c: CreditCard)
    requires c.limit == 0
    ensures c.currentBalance > 0 ==> UsageColorOf(c) == Red && UsageWidth(c) == Finite(100.0)
    ensures c.currentBalance == 0 ==> UsageColorOf(c) == Green && UsageWidth(c) == NaN
  {
  }

  /** The width never exceeds 100 unless it is NaN. */
  lemma UsageWidthBounded(c: CreditCard)
    ensures UsageWidth(c).NaN? || Le(UsageWidth(c), 100.0)
  {
  }
}
