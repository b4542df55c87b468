/**
 * CopyrightSincePlaceholderPopulator.populate: the "copyrightSince"
 * placeholder of a producer line becomes the earliest copyright-since year
 * of the products whose events are listed. The implementation is not part
 * of this model; the functions below are the contract that
 * CopyrightSincePlaceholderPopulatorTest pins down.
 */
module CopyrightSince {
  import opened Wrappers
  import opened Numerals

  /** The product description carried by an event; only the years matter here. */
  datatype ProductData = ProductData(
    publicProductName: string,
    productName: string,
    version: string,
    sinceCopyrightYear: nat,
    toCopyrightYear: nat)

  datatype ProductEvent = ProductEvent(productData: ProductData, eventType: string)

  /** ITextProductEventWrapper: an event with the usage type and producer line it was registered with. */
  datatype EventWrapper = EventWrapper(event: ProductEvent, productUsageType: string, producerLine: string)

  function SinceYear(w: EventWrapper): nat {
    w.event.productData.sinceCopyrightYear
  }

  /** The smallest since-year among the events. */
  function EarliestSinceYear(events: seq<EventWrapper>): (y: nat)
    requires |events| > 0
    ensures exists i :: 0 <= i < |events| && SinceYear(events[i]) == y
    ensures forall i :: 0 <= i < |events| ==> y <= SinceYear(events[i])
    decreases |events|
  {
    if |events| == 1 then SinceYear(events[0])
    else
      var rest := EarliestSinceYear(events[1..]);
      assert forall i :: 1 <= i < |events| ==> events[i] == events[1..][i - 1];
      if SinceYear(events[0]) <= rest then SinceYear(events[0]) else rest
  }

  /** The placeholder's text; the placeholder parameter is ignored. */
  function Populate(events: seq<EventWrapper>, parameter: Option<string>): (r: string)
    requires |events| > 0
    ensures AllDigits(r)
    ensures ParseDecimal(r) == EarliestSinceYear(events)
    ensures |r| > 0 && (r[0] != '0' || r == "0")
  {
    ParseDecimalOfDecimal(EarliestSinceYear(events));
    DecimalIsNumeral(EarliestSinceYear(events));
    Decimal(EarliestSinceYear(events))
  }

  /** The since-years mentioned by the events. */
  function SinceYears(events: seq<EventWrapper>): set<nat> {
    set w | w in events :: SinceYear(w)
  }

  /** The result depends on the set of since-years alone, not on order or repetition. */
  lemma SinceYearsDecide(a: seq<EventWrapper>, b: seq<EventWrapper>)
    requires |a| > 0 && |b| > 0
    requires SinceYears(a) == SinceYears(b)
    ensures Populate(a, None) == Populate(b, None)
  {
    var ya, yb := EarliestSinceYear(a), EarliestSinceYear(b);
    var i :| 0 <= i < |a| && SinceYear(a[i]) == ya;
    var j :| 0 <= j < |b| && SinceYear(b[j]) == yb;
    assert ya in SinceYears(b) by { assert a[i] in a; }
    assert yb in SinceYears(a) by { assert b[j] in b; }
    var w :| w in b && SinceYear(w) == ya;
    var v :| v in a && SinceYear(v) == yb;
    var j' :| 0 <= j' < |b| && b[j'] == w;
    var i' :| 0 <= i' < |a| && a[i'] == v;
    assert yb <= ya && ya <= yb;
  }

  // ---------------------------------------------------------------------
  // The cases of CopyrightSincePlaceholderPopulatorTest. Every event there
  // shares the copyright-to year 2021.

  function TestEvent(since: nat): EventWrapper {
    EventWrapper(
      ProductEvent(ProductData("iText Test", "itext-test", "25.3", since, 2021), "testing"),
      "AGPL", "iText test product line")
  }

  lemma OneEvent()
    ensures Populate([TestEvent(1994)], None) == "1994"
  {
  }

  lemma SeveralEvents()
    ensures Populate([TestEvent(2012), TestEvent(1994), TestEvent(1998)], None) == "1994"
  {
  }

  lemma SeveralEventsWithSameYear()
    ensures Populate([TestEvent(1992), TestEvent(1998), TestEvent(1992), TestEvent(1998)], None) == "1992"
  {
  }

  /** The copyright-to year shared by the events never decides the result. */
  lemma ToYearIgnored(events: seq<EventWrapper>, to: nat)
    requires |events| > 0
    ensures Populate(events, None) ==
            Populate(seq(|events|, i requires 0 <= i < |events| =>
                       events[i].(event := events[i].event.(productData := events[i].event.productData.(toCopyrightYear := to)))), None)
  {
    var moved := seq(|events|, i requires 0 <= i < |events| =>
                       events[i].(event := events[i].event.(productData := events[i].event.productData.(toCopyrightYear := to))));
    forall y | y in SinceYears(events) ensures y in SinceYears(moved) {
      var w :| w in events && SinceYear(w) == y;
      var i :| 0 <= i < |events| && events[i] == w;
      assert moved[i] in moved;
    }
    forall y | y in SinceYears(moved) ensures y in SinceYears(events) {
      var w :| w in moved && SinceYear(w) == y;
      var i :| 0 <= i < |moved| && moved[i] == w;
      assert events[i] in events;
    }
    SinceYearsDecide(events, moved);
  }
}
