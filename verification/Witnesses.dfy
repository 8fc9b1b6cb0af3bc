/** Runs that show the limits stated in Guarantees are met in practice. */
module Witnesses {
  import opened Wrappers
  import opened Money
  import opened Ledger
  import opened Books
  import opened Workflow
  import opened Interleavings
  import opened Guarantees

  /** One line of 100 kronor without VAT. */
  const LINES := [LineInput(1, 10000, 0)]

  const YEAR_LATER := 365 * MS_PER_DAY

  /** Created and sent at instant 0, due at once. */
  const SENT_INVOICE := [BeginCreate(0, 0, 0, LINES, 2026), FinishCreate(0), Send(0, 0)]

  const RUN_UNDER_WAY := SENT_INVOICE + [BeginRun(YEAR_LATER)]

  lemma OneLine(line: CalculatedLine)
    ensures TotalsOf([line]) == Totals(line.netOre, line.vatOre, line.netOre + line.vatOre)
  {
    var lines := [line];
    assert lines[..|lines| - 1] == [];
    assert SumNet(lines) == line.netOre;
    assert SumVat([]) == 0;
    assert SumVat(lines) == SumVat(lines[..|lines| - 1]) + line.vatOre;
  }

  lemma LineFigures()
    ensures |ItemsOf(LINES)| == 1 && ItemsOf(LINES)[0].netOre == 10000 && ItemsOf(LINES)[0].vatOre == 0
    ensures TotalsOf(Figures(ItemsOf(LINES))).grossTotalOre == 10000
    ensures Acceptable(LINES)
  {
    RoundOreIsNearest(0.0, 0);
    var figures := Figures(ItemsOf(LINES));
    assert CalculateLine(LINES[0]) == CalculatedLine(10000, 0, 10000);
    assert figures == [CalculatedLine(10000, 0, 10000)];
    OneLine(figures[0]);
  }

  /** Ten per cent of 100 kronor for a year. */
  lemma InterestOfAYear()
    ensures InterestAt(10000, 0, YEAR_LATER) == 1000
  {
    assert DaysBetween(0, YEAR_LATER) == 365;
    assert (10000 * 1000 * 365) as real / 10000.0 / 365.0 == 1000.0;
    RoundOreIsNearest(1000.0, 1000);
  }

  lemma SentState()
    ensures var w := Run(SENT_INVOICE);
      && w.db.invoices == [Some(NewDraft(Number(2026, 1), 0, 0, ItemsOf(LINES)).(status := SENT, sentAt := Some(0)))]
      && w.tasks == map[] && w.run == None && w.db.claimed == {}
  {
    LineFigures();
    var a, b := [BeginCreate(0, 0, 0, LINES, 2026)], [BeginCreate(0, 0, 0, LINES, 2026), FinishCreate(0)];
    assert a[..0] == [] && b[..1] == a && SENT_INVOICE[..2] == b;
    assert Run(a) == Step(START, a[0]);
    assert Run(b) == Step(Run(a), FinishCreate(0));
    assert Run(SENT_INVOICE) == Step(Run(b), Send(0, 0));
  }

  /** The state in which two runners would charge the same interest twice is reached. */
  lemma TwoRunnersMeet(at: Time)
    ensures var db := Run(SENT_INVOICE).db;
      IsOpen(db, 0)
      && var c := CandidateOf(0, At(db, 0));
      !Explained(Accrue(Accrue(db, c, YEAR_LATER, at), c, YEAR_LATER, at), 0)
  {
    SentState();
    LineFigures();
    InterestOfAYear();
    RunIsSound(SENT_INVOICE);
    TwoRunnersChargeTwice(Run(SENT_INVOICE).db, 0, YEAR_LATER, at);
  }

  /** A run that reports ten kronor of interest of which the ledger has none. */
  lemma ReportExceedsLedger(event: EventId, at: Time)
    ensures var paid := RUN_UNDER_WAY
        + [LookupPayment(0, StripeEvent(event, true, Some(0), true, None)), CommitPayment(0, YEAR_LATER)];
      var run := Run(paid).run;
      && run.Some? && run.value.queue != []
      && ReportedOre(run.value.queue[0], run.value.now) == 1000
      && Run(paid + [NextCandidate(at)]).db == Run(paid).db
      && TallyOf(Run(paid + [NextCandidate(at)]).db.ledger, 0).interestOre == 0
  {
    SentState();
    LineFigures();
    InterestOfAYear();
    var db := Run(SENT_INVOICE).db;
    assert RUN_UNDER_WAY[..|SENT_INVOICE|] == SENT_INVOICE;
    assert CandidatesBelow(db, 0, YEAR_LATER) == [];
    assert Candidates(db, YEAR_LATER) == [CandidateOf(0, At(db, 0))];
    var delivery := StripeEvent(event, true, Some(0), true, None);
    PaidBeforeItsTurn(RUN_UNDER_WAY, 0, delivery, YEAR_LATER, at);
    NoInterestYet();
  }

  lemma NoInterestYet()
    ensures TallyOf(Run(RUN_UNDER_WAY).db.ledger, 0).interestOre == 0
  {
    SentState();
    RunIsSound(SENT_INVOICE);
    assert Entry(Run(SENT_INVOICE).db, 0);
    assert RUN_UNDER_WAY[..|SENT_INVOICE|] == SENT_INVOICE;
  }

  // --- A gap in the numbers ---

  /** A draft is made and deleted: number 1 is spent, and no document will ever carry it. */
  lemma DeletedDraftLeavesGap()
    ensures var w := Run([BeginCreate(0, 0, 0, LINES, 2026), FinishCreate(0), DeleteDraft(0)]);
      LastNumber(w.db, 2026) == 1 && !Held(w, Number(2026, 1))
  {
    LineFigures();
    var a, b := [BeginCreate(0, 0, 0, LINES, 2026)], [BeginCreate(0, 0, 0, LINES, 2026), FinishCreate(0)];
    var es := [BeginCreate(0, 0, 0, LINES, 2026), FinishCreate(0), DeleteDraft(0)];
    assert a[..0] == [] && b[..1] == a && es[..2] == b;
    assert Run(a) == Step(START, a[0]);
    assert Run(b) == Step(Run(a), FinishCreate(0));
    assert IsDraft(Run(b).db, 0);
    assert Run(es).db.invoices == [None];
    assert Run(es).tasks == map[];
  }
}
