/** The invoice crons of rewarding/billing_crons.py: `send_invoices` issues
    the invoice of each subscription `gap` days before it expires,
    `send_invoice_reminders` and `send_invoice_overdue_notices` mail the
    client and count what was mailed, and `suspend_customers_services` marks
    invoices past their tolerance as exceeded and deactivates their
    subscription.

    Dates (`expiry`, `due_date`) are day numbers; instants (`now`,
    `last_reminder`, `last_overdue_notice`) are seconds, the day of an
    instant being its whole days. Whether a mail was accepted is a parameter,
    keyed by the invoice number; a mail that raises counts as refused. */
module Billing {
  import opened Models

  type SubscriptionId = int

  datatype InvoiceStatus = Pending | Paid | Overdue | Exceeded

  /** The subscription with what the crons read of its plan and service:
      `plan.raw_monthly_cost`, the months of its billing cycle, the service's
      wallet balance and whether the member has an e-mail address. */
  datatype Subscription = Subscription(
    monthlyCost: int,
    rawMonthlyCost: int,
    expiry: int,
    monthsCount: int,
    balance: int,
    hasEmail: bool,
    isActive: bool)

  datatype Invoice = Invoice(
    number: int,
    subscription: SubscriptionId,
    amount: int,
    dueDate: int,
    monthsCount: int,
    status: InvoiceStatus,
    remindersSent: int,
    lastReminder: Option<int>,
    overdueNoticesSent: int,
    lastOverdueNotice: Option<int>,
    walletPaid: bool)

  /** `InvoicingConfig`: the delays, in days. */
  datatype InvoicingConfig = InvoicingConfig(gap: int, reminderDelay: int, overdueDelay: int, tolerance: int)

  /** `overdue_notices_sent__lt=3`. */
  const MaxOverdueNotices: int := 3

  /** The date of an instant. */
  function Today(now: int): (d: int)
    ensures d * SecondsPerDay <= now < (d + 1) * SecondsPerDay
  {
    DaysBetween(0, now)
  }

  /** The order of the lifecycle PENDING -> OVERDUE -> EXCEEDED; PAID is
      set at issue when the wallet pays, and no later pass leaves it. */
  function Stage(s: InvoiceStatus): int
  {
    match s
    case Pending => 0
    case Overdue => 1
    case Exceeded => 2
    case Paid => 3
  }

  // ------------------------------------------------------------ send_invoices

  /** The invoice `send_invoices` issues for a subscription, if any:
      `monthly_cost__gt=0`, `expiry` on today + gap, and a plan that is not
      free. It is paid from the wallet, and so PAID, when the balance covers
      it, and PENDING otherwise; the first reminder is recorded only when the
      mail was accepted and the wallet did not pay. */
  function Issue(sub: Subscription, sid: SubscriptionId, number: int, now: int, cfg: InvoicingConfig, accepted: bool): Option<Invoice>
  {
    if !(sub.monthlyCost > 0 && sub.expiry == Today(now) + cfg.gap) || sub.rawMonthlyCost == 0 then None
    else
      var amount := sub.monthlyCost * sub.monthsCount;
      var wallet := sub.balance >= amount;
      var mailed := sub.hasEmail && accepted && !wallet;
      Some(Invoice(number, sid, amount, sub.expiry, sub.monthsCount, if wallet then Paid else Pending,
                   if mailed then 1 else 0, if mailed then Some(now) else None, 0, None, wallet))
  }

  /** The status an invoice is issued with: PAID by `pay_with_wallet_balance`,
      PENDING otherwise. */
  function IssuedStatus(inv: Invoice): InvoiceStatus
  {
    if inv.walletPaid then Paid else Pending
  }

  /** The run's state: the invoices and the running `count` and
      `total_amount`. */
  datatype Run = Run(invoices: seq<Invoice>, count: int, total: int)

  /** `send_invoices` over the subscriptions in the order the query returns
      them; invoice numbers follow the invoices already there. */
  function IssueAll(acc: Run, subs: map<SubscriptionId, Subscription>, order: seq<SubscriptionId>, now: int,
                    cfg: InvoicingConfig, accepted: int -> bool): Run
    decreases |order|
  {
    if order == [] then acc
    else IssueStep(IssueAll(acc, subs, order[..|order| - 1], now, cfg, accepted), subs, order[|order| - 1], now, cfg, accepted)
  }

  /** One subscription of the loop; the invoice number follows the invoices
      already there. */
  function IssueStep(r: Run, subs: map<SubscriptionId, Subscription>, sid: SubscriptionId, now: int,
                     cfg: InvoicingConfig, accepted: int -> bool): Run
  {
    var number := |r.invoices|;
    if sid !in subs then r
    else match Issue(subs[sid], sid, number, now, cfg, accepted(number))
      case None => r
      case Some(inv) => Run(r.invoices + [inv], r.count + 1, r.total + inv.amount)
  }

  /** One subscription issues at most one invoice, appended, PAID when the
      wallet paid it and PENDING otherwise, numbered by its position, and
      counted in `count` and `total_amount`. */
  lemma IssueStepEffect(r: Run, subs: map<SubscriptionId, Subscription>, sid: SubscriptionId, now: int,
                        cfg: InvoicingConfig, accepted: int -> bool)
    ensures var r' := IssueStep(r, subs, sid, now, cfg, accepted);
      && (|r'.invoices| == |r.invoices| ==> r' == r)
      && (|r'.invoices| != |r.invoices| ==>
            && |r'.invoices| == |r.invoices| + 1 && r'.invoices[..|r.invoices|] == r.invoices
            && r'.count == r.count + 1 && r'.total == r.total + r'.invoices[|r.invoices|].amount
            && r'.invoices[|r.invoices|].subscription in subs
            && r'.invoices[|r.invoices|].number == |r.invoices|
            && r'.invoices[|r.invoices|].status == IssuedStatus(r'.invoices[|r.invoices|]))
  {
    var r' := IssueStep(r, subs, sid, now, cfg, accepted);
    if |r'.invoices| != |r.invoices| {
      assert r'.invoices[..|r.invoices|] == r.invoices;
    }
  }

  /** An issued invoice is PAID when the wallet paid it and PENDING
      otherwise, due on the subscription's expiry, worth
      the monthly cost times the months of the cycle, paid from the wallet
      exactly when the balance covers it, and has one reminder recorded
      exactly when its mail was accepted and the wallet did not pay. */
  lemma IssueEffect(sub: Subscription, sid: SubscriptionId, number: int, now: int, cfg: InvoicingConfig, accepted: bool)
    ensures Issue(sub, sid, number, now, cfg, accepted).Some? <==>
      sub.monthlyCost > 0 && sub.rawMonthlyCost != 0 && sub.expiry == Today(now) + cfg.gap
    ensures match Issue(sub, sid, number, now, cfg, accepted)
      case None => true
      case Some(inv) =>
        && inv.status == IssuedStatus(inv) && inv.dueDate == sub.expiry && inv.subscription == sid
        && inv.amount == sub.monthlyCost * sub.monthsCount
        && (inv.walletPaid <==> sub.balance >= inv.amount)
        && (inv.remindersSent == 1 <==> sub.hasEmail && accepted && !inv.walletPaid)
        && (inv.lastReminder.Some? <==> inv.remindersSent == 1)
        && inv.overdueNoticesSent == 0 && inv.lastOverdueNotice.None?
  {
  }

  /** Issuing only appends invoices, each for a listed subscription, PAID
      when the wallet paid it and PENDING otherwise; `count` counts them and
      `total_amount` sums their amounts. */
  lemma IssueAllEffect(acc: Run, subs: map<SubscriptionId, Subscription>, order: seq<SubscriptionId>,
                       now: int, cfg: InvoicingConfig, accepted: int -> bool)
    ensures var r := IssueAll(acc, subs, order, now, cfg, accepted);
      && |acc.invoices| <= |r.invoices| <= |acc.invoices| + |order|
      && r.invoices[..|acc.invoices|] == acc.invoices
      && r.count == acc.count + (|r.invoices| - |acc.invoices|)
      && r.total == acc.total + AmountSum(r.invoices[|acc.invoices|..])
      && (forall i :: |acc.invoices| <= i < |r.invoices| ==>
            r.invoices[i].subscription in subs && r.invoices[i].number == i
            && r.invoices[i].status == IssuedStatus(r.invoices[i]))
  {
    IssueAllAppends(acc, subs, order, now, cfg, accepted);
    IssueAllTally(acc, subs, order, now, cfg, accepted);
    IssueAllNew(acc, subs, order, now, cfg, accepted);
  }

  /** The invoices there before stay, and at most one is added per
      subscription. */
  lemma {:induction false} IssueAllAppends(acc: Run, subs: map<SubscriptionId, Subscription>, order: seq<SubscriptionId>,
                                           now: int, cfg: InvoicingConfig, accepted: int -> bool)
    ensures var r := IssueAll(acc, subs, order, now, cfg, accepted);
      && |acc.invoices| <= |r.invoices| <= |acc.invoices| + |order|
      && r.invoices[..|acc.invoices|] == acc.invoices
    decreases |order|
  {
    if order != [] {
      IssueAllAppends(acc, subs, order[..|order| - 1], now, cfg, accepted);
      var mid := IssueAll(acc, subs, order[..|order| - 1], now, cfg, accepted);
      var r := IssueAll(acc, subs, order, now, cfg, accepted);
      assert r == IssueStep(mid, subs, order[|order| - 1], now, cfg, accepted);
      IssueStepEffect(mid, subs, order[|order| - 1], now, cfg, accepted);
      if |r.invoices| != |mid.invoices| {
        assert r.invoices[..|acc.invoices|] == r.invoices[..|mid.invoices|][..|acc.invoices|];
      }
    }
  }

  /** `count` counts the new invoices and `total_amount` sums their amounts. */
  lemma {:induction false} IssueAllTally(acc: Run, subs: map<SubscriptionId, Subscription>, order: seq<SubscriptionId>,
                                         now: int, cfg: InvoicingConfig, accepted: int -> bool)
    ensures var r := IssueAll(acc, subs, order, now, cfg, accepted);
      && |acc.invoices| <= |r.invoices|
      && r.count == acc.count + (|r.invoices| - |acc.invoices|)
      && r.total == acc.total + AmountSum(r.invoices[|acc.invoices|..])
    decreases |order|
  {
    if order != [] {
      IssueAllTally(acc, subs, order[..|order| - 1], now, cfg, accepted);
      var mid := IssueAll(acc, subs, order[..|order| - 1], now, cfg, accepted);
      var r := IssueAll(acc, subs, order, now, cfg, accepted);
      assert r == IssueStep(mid, subs, order[|order| - 1], now, cfg, accepted);
      IssueStepEffect(mid, subs, order[|order| - 1], now, cfg, accepted);
      if |r.invoices| != |mid.invoices| {
        var n := |acc.invoices|;
        var tail := r.invoices[n..];
        assert tail == mid.invoices[n..] + [r.invoices[|mid.invoices|]];
        assert tail[..|tail| - 1] == mid.invoices[n..];
      }
    }
  }

  /** An invoice issued at position i: for a listed subscription, numbered
      i, PAID or PENDING as the wallet paid it or not. */
  predicate NewInvoice(inv: Invoice, subs: map<SubscriptionId, Subscription>, i: int)
  {
    inv.subscription in subs && inv.number == i && inv.status == IssuedStatus(inv)
  }

  /** Every new invoice is PAID when wallet-paid and PENDING otherwise,
      numbered by its position and for a listed subscription. */
  lemma {:induction false} IssueAllNew(acc: Run, subs: map<SubscriptionId, Subscription>, order: seq<SubscriptionId>,
                                       now: int, cfg: InvoicingConfig, accepted: int -> bool)
    ensures forall i :: |acc.invoices| <= i < |IssueAll(acc, subs, order, now, cfg, accepted).invoices| ==>
      NewInvoice(IssueAll(acc, subs, order, now, cfg, accepted).invoices[i], subs, i)
    decreases |order|
  {
    if order != [] {
      IssueAllNew(acc, subs, order[..|order| - 1], now, cfg, accepted);
      var mid := IssueAll(acc, subs, order[..|order| - 1], now, cfg, accepted);
      var r := IssueAll(acc, subs, order, now, cfg, accepted);
      assert r == IssueStep(mid, subs, order[|order| - 1], now, cfg, accepted);
      IssueStepEffect(mid, subs, order[|order| - 1], now, cfg, accepted);
      if |r.invoices| != |mid.invoices| {
        forall i | |acc.invoices| <= i < |r.invoices|
          ensures NewInvoice(r.invoices[i], subs, i)
        {
          if i < |mid.invoices| {
            assert r.invoices[i] == r.invoices[..|mid.invoices|][i];
          }
        }
      }
    }
  }

  function AmountSum(invs: seq<Invoice>): int
    decreases |invs|
  {
    if invs == [] then 0 else AmountSum(invs[..|invs| - 1]) + invs[|invs| - 1].amount
  }

  // ----------------------------------------- reminders, notices, suspension

  datatype Pass = ReminderPass | OverduePass | SuspensionPass

  /** One invoice of a pass: the invoice afterwards and whether the pass
      counted it.
      - Reminders: a pending invoice not yet due, already reminded once, of a
        paying plan, exactly `reminder_delay` whole days after the last
        reminder; with an e-mail address the reminder date is now and the
        counter grows when the mail is accepted.
      - Overdue notices: a pending or overdue invoice past due with fewer
        than 3 notices, of a paying plan; the first notice makes it OVERDUE;
        a notice is due the first time and then `overdue_delay` whole days
        after the last; with an e-mail address the notice date is now and the
        counter grows when the mail is accepted.
      - Suspension: an overdue invoice due `tolerance` days ago or more, of a
        paying plan, becomes EXCEEDED. */
  function Visit(p: Pass, inv: Invoice, sub: Subscription, now: int, cfg: InvoicingConfig, accepted: bool): (Invoice, bool)
  {
    match p
    case ReminderPass =>
      if !(inv.status == Pending && inv.dueDate >= Today(now) && inv.lastReminder.Some?) || sub.rawMonthlyCost == 0 then (inv, false)
      else if DaysBetween(inv.lastReminder.value, now) != cfg.reminderDelay then (inv, false)
      else if !sub.hasEmail then (inv, true)
      else (inv.(lastReminder := Some(now), remindersSent := inv.remindersSent + if accepted then 1 else 0), true)
    case OverduePass =>
      if !((inv.status == Pending || inv.status == Overdue) && inv.dueDate < Today(now)
           && inv.overdueNoticesSent < MaxOverdueNotices) || sub.rawMonthlyCost == 0 then (inv, false)
      else
        var first := inv.lastOverdueNotice.None?;
        var inv1 := if first then inv.(status := Overdue) else inv;
        if !first && DaysBetween(inv.lastOverdueNotice.value, now) != cfg.overdueDelay then (inv1, false)
        else if !sub.hasEmail then (inv1, true)
        else (inv1.(lastOverdueNotice := Some(now), overdueNoticesSent := inv1.overdueNoticesSent + if accepted then 1 else 0), true)
    case SuspensionPass =>
      if inv.status == Overdue && inv.dueDate <= Today(now) - cfg.tolerance && sub.rawMonthlyCost != 0 then
        (inv.(status := Exceeded), true)
      else (inv, false)
  }

  /** A pass moves an invoice's status only forward, PENDING to OVERDUE by
      the first overdue notice and OVERDUE to EXCEEDED by the suspension; it
      never changes the invoice's number, subscription, amount or due date. */
  lemma VisitMovesForward(p: Pass, inv: Invoice, sub: Subscription, now: int, cfg: InvoicingConfig, accepted: bool)
    ensures var (inv', _) := Visit(p, inv, sub, now, cfg, accepted);
      && Stage(inv.status) <= Stage(inv'.status)
      && (inv'.status != inv.status ==>
            (p == OverduePass && inv.status == Pending && inv'.status == Overdue)
            || (p == SuspensionPass && inv.status == Overdue && inv'.status == Exceeded))
      && inv'.number == inv.number && inv'.subscription == inv.subscription
      && inv'.amount == inv.amount && inv'.dueDate == inv.dueDate
  {
  }

  /** The reminder counter grows by at most one, and only for an accepted
      mail; whenever a mail is attempted the reminder date is now, accepted
      or not. */
  lemma ReminderCounting(inv: Invoice, sub: Subscription, now: int, cfg: InvoicingConfig, accepted: bool)
    ensures var (inv', counted) := Visit(ReminderPass, inv, sub, now, cfg, accepted);
      && inv.remindersSent <= inv'.remindersSent <= inv.remindersSent + 1
      && (inv'.remindersSent == inv.remindersSent + 1 <==> counted && sub.hasEmail && accepted)
      && (counted && sub.hasEmail ==> inv'.lastReminder == Some(now))
      && (!counted ==> inv' == inv)
      && (counted ==> inv.lastReminder.Some? && DaysBetween(inv.lastReminder.value, now) == cfg.reminderDelay)
  {
  }

  /** An invoice whose first mail was not recorded is never reminded. */
  lemma UnmailedInvoiceIsNeverReminded(sub: Subscription, sid: SubscriptionId, number: int, t0: int, cfg: InvoicingConfig,
                                       accepted: bool, now: int, accepted': bool)
    requires Issue(sub, sid, number, t0, cfg, accepted).Some?
    requires !(sub.hasEmail && accepted) || sub.balance >= sub.monthlyCost * sub.monthsCount
    ensures var inv := Issue(sub, sid, number, t0, cfg, accepted).value;
      Visit(ReminderPass, inv, sub, now, cfg, accepted') == (inv, false)
  {
  }

  /** The overdue-notice counter never passes 3 and grows by at most one, only
      for an accepted mail; an invoice at 3 notices is left alone. */
  lemma OverdueNoticesCapped(inv: Invoice, sub: Subscription, now: int, cfg: InvoicingConfig, accepted: bool)
    requires inv.overdueNoticesSent <= MaxOverdueNotices
    ensures var (inv', counted) := Visit(OverduePass, inv, sub, now, cfg, accepted);
      && inv.overdueNoticesSent <= inv'.overdueNoticesSent <= MaxOverdueNotices
      && inv'.overdueNoticesSent <= inv.overdueNoticesSent + 1
      && (inv'.overdueNoticesSent == inv.overdueNoticesSent + 1 <==> counted && sub.hasEmail && accepted)
      && (inv.overdueNoticesSent == MaxOverdueNotices ==> inv' == inv && !counted)
      && (counted && sub.hasEmail ==> inv'.lastOverdueNotice == Some(now))
  {
  }

  /** The first overdue notice of an invoice past due makes it OVERDUE even
      when no mail can go out. */
  lemma FirstNoticeMakesOverdue(inv: Invoice, sub: Subscription, now: int, cfg: InvoicingConfig, accepted: bool)
    requires inv.status == Pending && inv.dueDate < Today(now) && inv.overdueNoticesSent < MaxOverdueNotices
    requires sub.rawMonthlyCost != 0 && inv.lastOverdueNotice.None?
    ensures Visit(OverduePass, inv, sub, now, cfg, accepted).0.status == Overdue
    ensures Visit(OverduePass, inv, sub, now, cfg, accepted).1
  {
  }

  /** Only an OVERDUE invoice can become EXCEEDED, and then exactly when it
      is `tolerance` days past due. */
  lemma SuspensionNeedsOverdue(inv: Invoice, sub: Subscription, now: int, cfg: InvoicingConfig, accepted: bool)
    requires sub.rawMonthlyCost != 0
    ensures Visit(SuspensionPass, inv, sub, now, cfg, accepted).0.status == Exceeded <==>
      inv.status == Exceeded || (inv.status == Overdue && inv.dueDate + cfg.tolerance <= Today(now))
  {
  }

  /** No pass touches a PAID invoice: it is neither changed nor counted. */
  lemma PaidIsFinal(p: Pass, inv: Invoice, sub: Subscription, now: int, cfg: InvoicingConfig, accepted: bool)
    requires inv.status == Paid
    ensures Visit(p, inv, sub, now, cfg, accepted) == (inv, false)
  {
  }

  /** An invoice the wallet paid at issue is never reminded, noticed,
      made overdue or suspended, whenever the later passes run; an invoice the
      wallet did not pay is issued pending. */
  lemma WalletPaidInvoiceIsLeftAlone(sub: Subscription, sid: SubscriptionId, number: int, t0: int, cfg: InvoicingConfig,
                                     accepted: bool, p: Pass, now: int, accepted': bool)
    requires Issue(sub, sid, number, t0, cfg, accepted).Some?
    ensures var inv := Issue(sub, sid, number, t0, cfg, accepted).value;
      && (sub.balance >= sub.monthlyCost * sub.monthsCount ==> Visit(p, inv, sub, now, cfg, accepted') == (inv, false))
      && (sub.balance < sub.monthlyCost * sub.monthsCount ==> inv.status == Pending)
  {
    var inv := Issue(sub, sid, number, t0, cfg, accepted).value;
    if sub.balance >= sub.monthlyCost * sub.monthsCount {
      PaidIsFinal(p, inv, sub, now, cfg, accepted');
    }
  }

  /** A pass over every invoice, each with the mail outcome of its number. */
  function VisitAll(p: Pass, invs: seq<Invoice>, subs: map<SubscriptionId, Subscription>, now: int,
                    cfg: InvoicingConfig, accepted: int -> bool): (r: seq<Invoice>)
    requires forall i :: 0 <= i < |invs| ==> invs[i].subscription in subs
    ensures |r| == |invs|
    ensures forall i :: 0 <= i < |invs| ==>
      r[i] == Visit(p, invs[i], subs[invs[i].subscription], now, cfg, accepted(invs[i].number)).0
  {
    seq(|invs|, i requires 0 <= i < |invs| =>
      Visit(p, invs[i], subs[invs[i].subscription], now, cfg, accepted(invs[i].number)).0)
  }

  /** The `count` and `total_amount` of a pass over the first invoices. */
  function Tally(p: Pass, invs: seq<Invoice>, subs: map<SubscriptionId, Subscription>, now: int,
                 cfg: InvoicingConfig, accepted: int -> bool): (int, int)
    requires forall i :: 0 <= i < |invs| ==> invs[i].subscription in subs
    decreases |invs|
  {
    if invs == [] then (0, 0)
    else
      var last := invs[|invs| - 1];
      var (count, total) := Tally(p, invs[..|invs| - 1], subs, now, cfg, accepted);
      if Visit(p, last, subs[last.subscription], now, cfg, accepted(last.number)).1 then (count + 1, total + last.amount)
      else (count, total)
  }

  /** The subscriptions after the suspension: deactivated for each invoice
      the pass marks EXCEEDED. */
  function Deactivate(subs: map<SubscriptionId, Subscription>, invs: seq<Invoice>, now: int, cfg: InvoicingConfig): (r: map<SubscriptionId, Subscription>)
    requires forall i :: 0 <= i < |invs| ==> invs[i].subscription in subs
    ensures r.Keys == subs.Keys
    decreases |invs|
  {
    if invs == [] then subs
    else
      var r := Deactivate(subs, invs[..|invs| - 1], now, cfg);
      var last := invs[|invs| - 1];
      if Visit(SuspensionPass, last, subs[last.subscription], now, cfg, false).1 then
        r[last.subscription := r[last.subscription].(isActive := false)]
      else r
  }

  /** The suspension deactivates exactly the subscriptions of the invoices it
      marks EXCEEDED, and changes nothing else in any subscription. */
  lemma {:induction false} DeactivateEffect(subs: map<SubscriptionId, Subscription>, invs: seq<Invoice>, now: int, cfg: InvoicingConfig)
    requires forall i :: 0 <= i < |invs| ==> invs[i].subscription in subs
    ensures var r := Deactivate(subs, invs, now, cfg);
      forall id :: id in subs ==>
        && r[id] == subs[id].(isActive := r[id].isActive)
        && (r[id].isActive <==>
              (subs[id].isActive &&
               forall i :: 0 <= i < |invs| && invs[i].subscription == id ==>
                 !Visit(SuspensionPass, invs[i], subs[id], now, cfg, false).1))
    decreases |invs|
  {
    if invs != [] {
      DeactivateEffect(subs, invs[..|invs| - 1], now, cfg);
      var init := invs[..|invs| - 1];
      assert forall i :: 0 <= i < |init| ==> init[i] == invs[i];
    }
  }

  // ------------------------------------------------------------ the crons

  /** The suspension sends no mail. */
  function NoMail(number: int): bool
  {
    false
  }

  /** The invoices and the subscriptions they bill. */
  class InvoiceStore {
    var subscriptions: map<SubscriptionId, Subscription>
    var invoices: seq<Invoice>

    /** Every invoice bills a known subscription. */
    ghost predicate Valid()
      reads this
    {
      forall i :: 0 <= i < |invoices| ==> invoices[i].subscription in subscriptions
    }

    constructor (subs: map<SubscriptionId, Subscription>)
      ensures subscriptions == subs && invoices == [] && Valid()
    {
      subscriptions := subs;
      invoices := [];
    }
  }

  /** `send_invoices`; returns `count` and `total_amount`. */
  method SendInvoices(db: InvoiceStore, order: seq<SubscriptionId>, now: int, cfg: InvoicingConfig, accepted: int -> bool)
    returns (count: int, total: int)
    requires db.Valid()
    modifies db
    ensures Run(db.invoices, count, total) == IssueAll(Run(old(db.invoices), 0, 0), old(db.subscriptions), order, now, cfg, accepted)
    ensures db.subscriptions == old(db.subscriptions) && db.Valid()
  {
    count, total := 0, 0;
    var i := 0;
    while i < |order|
      invariant 0 <= i <= |order|
      invariant db.subscriptions == old(db.subscriptions)
      invariant Run(db.invoices, count, total) == IssueAll(Run(old(db.invoices), 0, 0), db.subscriptions, order[..i], now, cfg, accepted)
      invariant db.Valid()
    {
      var sid := order[i];
      assert order[..i + 1][..i] == order[..i];
      if sid in db.subscriptions {
        var sub := db.subscriptions[sid];
        if sub.monthlyCost > 0 && sub.expiry == Today(now) + cfg.gap && sub.rawMonthlyCost != 0 {
          var number := |db.invoices|;
          var amount := sub.monthlyCost * sub.monthsCount;
          var paidByWallet := sub.balance >= amount;
          var inv := Invoice(number, sid, amount, sub.expiry, sub.monthsCount, Pending, 0, None, 0, None, false);
          if paidByWallet {
            inv := inv.(status := Paid, walletPaid := true);
          }
          if sub.hasEmail && accepted(number) && !paidByWallet {
            inv := inv.(lastReminder := Some(now), remindersSent := 1);
          }
          db.invoices := db.invoices + [inv];
          count := count + 1;
          total := total + amount;
        }
      }
      i := i + 1;
    }
    assert order[..|order|] == order;
  }

  /** `send_invoice_reminders`; returns `count` and `total_amount`. */
  method SendInvoiceReminders(db: InvoiceStore, now: int, cfg: InvoicingConfig, accepted: int -> bool)
    returns (count: int, total: int)
    requires db.Valid()
    modifies db
    ensures db.invoices == VisitAll(ReminderPass, old(db.invoices), old(db.subscriptions), now, cfg, accepted)
    ensures (count, total) == Tally(ReminderPass, old(db.invoices), old(db.subscriptions), now, cfg, accepted)
    ensures db.subscriptions == old(db.subscriptions) && db.Valid()
  {
    var out;
    out, count, total := RemindAll(db.invoices, db.subscriptions, now, cfg, accepted);
    db.invoices := out;
  }

  /** The loop of `send_invoice_reminders` over the invoices: the invoices as saved, `count` and `total_amount`. */
  method RemindAll(invs: seq<Invoice>, subs: map<SubscriptionId, Subscription>, now: int, cfg: InvoicingConfig, accepted: int -> bool)
    returns (out: seq<Invoice>, count: int, total: int)
    requires forall k :: 0 <= k < |invs| ==> invs[k].subscription in subs
    ensures out == VisitAll(ReminderPass, invs, subs, now, cfg, accepted)
    ensures (count, total) == Tally(ReminderPass, invs, subs, now, cfg, accepted)
    ensures forall k :: 0 <= k < |out| ==> out[k].subscription in subs
  {
    out, count, total := [], 0, 0;
    var i := 0;
    while i < |invs|
      invariant 0 <= i <= |invs| && |out| == i
      invariant forall k :: 0 <= k < i ==>
        out[k] == Visit(ReminderPass, invs[k], subs[invs[k].subscription], now, cfg, accepted(invs[k].number)).0
      invariant (count, total) == Tally(ReminderPass, invs[..i], subs, now, cfg, accepted)
      invariant forall k :: 0 <= k < i ==> out[k].subscription in subs
    {
      var inv, due := RemindInvoice(invs[i], subs[invs[i].subscription], now, cfg, accepted(invs[i].number));
      VisitMovesForward(ReminderPass, invs[i], subs[invs[i].subscription], now, cfg, accepted(invs[i].number));
      if due {
        count := count + 1;
        total := total + invs[i].amount;
      }
      out := out + [inv];
      assert invs[..i + 1][..i] == invs[..i];
      i := i + 1;
    }
    assert invs[..|invs|] == invs;
  }

  /** `send_invoice_overdue_notices`; returns `count` and `total_amount`. */
  method SendInvoiceOverdueNotices(db: InvoiceStore, now: int, cfg: InvoicingConfig, accepted: int -> bool)
    returns (count: int, total: int)
    requires db.Valid()
    modifies db
    ensures db.invoices == VisitAll(OverduePass, old(db.invoices), old(db.subscriptions), now, cfg, accepted)
    ensures (count, total) == Tally(OverduePass, old(db.invoices), old(db.subscriptions), now, cfg, accepted)
    ensures db.subscriptions == old(db.subscriptions) && db.Valid()
  {
    var out;
    out, count, total := NoticeAll(db.invoices, db.subscriptions, now, cfg, accepted);
    db.invoices := out;
  }

  /** The loop of `send_invoice_overdue_notices` over the invoices: the invoices as saved, `count` and `total_amount`. */
  method NoticeAll(invs: seq<Invoice>, subs: map<SubscriptionId, Subscription>, now: int, cfg: InvoicingConfig, accepted: int -> bool)
    returns (out: seq<Invoice>, count: int, total: int)
    requires forall k :: 0 <= k < |invs| ==> invs[k].subscription in subs
    ensures out == VisitAll(OverduePass, invs, subs, now, cfg, accepted)
    ensures (count, total) == Tally(OverduePass, invs, subs, now, cfg, accepted)
    ensures forall k :: 0 <= k < |out| ==> out[k].subscription in subs
  {
    out, count, total := [], 0, 0;
    var i := 0;
    while i < |invs|
      invariant 0 <= i <= |invs| && |out| == i
      invariant forall k :: 0 <= k < i ==>
        out[k] == Visit(OverduePass, invs[k], subs[invs[k].subscription], now, cfg, accepted(invs[k].number)).0
      invariant (count, total) == Tally(OverduePass, invs[..i], subs, now, cfg, accepted)
      invariant forall k :: 0 <= k < i ==> out[k].subscription in subs
    {
      var inv, due := NoticeOverdue(invs[i], subs[invs[i].subscription], now, cfg, accepted(invs[i].number));
      VisitMovesForward(OverduePass, invs[i], subs[invs[i].subscription], now, cfg, accepted(invs[i].number));
      if due {
        count := count + 1;
        total := total + invs[i].amount;
      }
      out := out + [inv];
      assert invs[..i + 1][..i] == invs[..i];
      i := i + 1;
    }
    assert invs[..|invs|] == invs;
  }

  /** `suspend_customers_services`; returns `count` and `total_amount`. */
  method SuspendCustomersServices(db: InvoiceStore, now: int, cfg: InvoicingConfig)
    returns (count: int, total: int)
    requires db.Valid()
    modifies db
    ensures db.invoices == VisitAll(SuspensionPass, old(db.invoices), old(db.subscriptions), now, cfg, NoMail)
    ensures (count, total) == Tally(SuspensionPass, old(db.invoices), old(db.subscriptions), now, cfg, NoMail)
    ensures db.subscriptions == Deactivate(old(db.subscriptions), old(db.invoices), now, cfg) && db.Valid()
  {
    var out, subs;
    out, subs, count, total := SuspendAll(db.invoices, db.subscriptions, now, cfg);
    db.invoices, db.subscriptions := out, subs;
  }

  /** The loop of `suspend_customers_services` over the invoices: the
      invoices and subscriptions as saved, `count` and `total_amount`. */
  method SuspendAll(invs: seq<Invoice>, subs0: map<SubscriptionId, Subscription>, now: int, cfg: InvoicingConfig)
    returns (out: seq<Invoice>, subs: map<SubscriptionId, Subscription>, count: int, total: int)
    requires forall k :: 0 <= k < |invs| ==> invs[k].subscription in subs0
    ensures out == VisitAll(SuspensionPass, invs, subs0, now, cfg, NoMail)
    ensures (count, total) == Tally(SuspensionPass, invs, subs0, now, cfg, NoMail)
    ensures subs == Deactivate(subs0, invs, now, cfg)
    ensures forall k :: 0 <= k < |out| ==> out[k].subscription in subs
  {
    out, subs, count, total := [], subs0, 0, 0;
    var i := 0;
    while i < |invs|
      invariant 0 <= i <= |invs| && |out| == i
      invariant forall k :: 0 <= k < i ==>
        out[k] == Visit(SuspensionPass, invs[k], subs0[invs[k].subscription], now, cfg, false).0
      invariant (count, total) == Tally(SuspensionPass, invs[..i], subs0, now, cfg, NoMail)
      invariant subs == Deactivate(subs0, invs[..i], now, cfg)
    {
      var id := invs[i].subscription;
      var inv, exceeded := SuspendInvoice(invs[i], subs0[id], now, cfg);
      if exceeded {
        count := count + 1;
        total := total + invs[i].amount;
        subs := subs[id := subs[id].(isActive := false)];
      }
      out := out + [inv];
      assert invs[..i + 1][..i] == invs[..i];
      i := i + 1;
    }
    assert invs[..|invs|] == invs;
  }

  /** The body of the reminder loop for one invoice: whether it is counted,
      and the invoice as saved. */
  method RemindInvoice(inv0: Invoice, sub: Subscription, now: int, cfg: InvoicingConfig, accepted: bool)
    returns (inv: Invoice, due: bool)
    ensures (inv, due) == Visit(ReminderPass, inv0, sub, now, cfg, accepted)
  {
    inv, due := inv0, false;
    if inv.status == Pending && inv.dueDate >= Today(now) && inv.lastReminder.Some? && sub.rawMonthlyCost != 0
       && DaysBetween(inv.lastReminder.value, now) == cfg.reminderDelay {
      due := true;
      if sub.hasEmail {
        inv := inv.(lastReminder := Some(now));
        if accepted {
          inv := inv.(remindersSent := inv.remindersSent + 1);
        }
      }
    }
  }

  /** The body of the overdue loop for one invoice: whether it is counted,
      and the invoice as saved. */
  method NoticeOverdue(inv0: Invoice, sub: Subscription, now: int, cfg: InvoicingConfig, accepted: bool)
    returns (inv: Invoice, due: bool)
    ensures (inv, due) == Visit(OverduePass, inv0, sub, now, cfg, accepted)
  {
    inv, due := inv0, false;
    if (inv.status == Pending || inv.status == Overdue) && inv.dueDate < Today(now)
       && inv.overdueNoticesSent < MaxOverdueNotices && sub.rawMonthlyCost != 0 {
      due := true;
      if inv.lastOverdueNotice.Some? {
        due := DaysBetween(inv.lastOverdueNotice.value, now) == cfg.overdueDelay;
      } else {
        inv := inv.(status := Overdue);
      }
      if due && sub.hasEmail {
        inv := inv.(lastOverdueNotice := Some(now));
        if accepted {
          inv := inv.(overdueNoticesSent := inv.overdueNoticesSent + 1);
        }
      }
    }
  }

  /** The body of the suspension loop for one invoice: whether it is marked
      EXCEEDED, and the invoice as saved. */
  method SuspendInvoice(inv0: Invoice, sub: Subscription, now: int, cfg: InvoicingConfig)
    returns (inv: Invoice, exceeded: bool)
    ensures (inv, exceeded) == Visit(SuspensionPass, inv0, sub, now, cfg, false)
  {
    inv, exceeded := inv0, false;
    if inv.status == Overdue && inv.dueDate <= Today(now) - cfg.tolerance && sub.rawMonthlyCost != 0 {
      inv, exceeded := inv.(status := Exceeded), true;
    }
  }
}
