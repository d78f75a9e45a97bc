// Runtime configuration (app/config.py): cost-basis method, fee schedule and tolerances.

module Settings {
  import opened Money

  datatype CostBasisMethod = AVERAGE | FIFO

  datatype FeeSchedule = FeeSchedule(perOrder: real, perShare: real, bps: real, minimum: real, maximum: real)
  {
    function Raw(qty: real, price: real): real {
      perOrder + Worth(perShare, qty) + Worth(Worth(qty, price), bps / 10000.0)
    }

    // Floored first, then capped: the cap wins when the two are out of order.
    function Compute(qty: real, price: real): real {
      var fee := Raw(qty, price);
      var floored := if fee < minimum then minimum else fee;
      if floored > maximum then maximum else floored
    }
  }

  datatype Tolerances = Tolerances(qty: real, price: real, pnl: real)

  datatype Config = Config(basis: CostBasisMethod, fees: FeeSchedule, tolerances: Tolerances)

  // The fee is the order's flat part, the rate per share and the basis points of the notional,
  // as long as that lies between minimum and maximum, and the nearer bound when it does not.
  lemma FeeIsClamped(s: FeeSchedule, qty: real, price: real)
    ensures var full, fee := s.perOrder + s.perShare * qty + qty * price * s.bps / 10000.0, s.Compute(qty, price);
            && fee <= s.maximum && (s.minimum <= s.maximum ==> s.minimum <= fee)
            && (s.minimum <= full <= s.maximum ==> fee == full)
            && (full > s.maximum ==> fee == s.maximum)
            && (full < s.minimum <= s.maximum ==> fee == s.minimum)
            && (s.maximum < s.minimum ==> fee == s.maximum)
  {
    var notional := qty * price;
    assert notional * (s.bps / 10000.0) == notional * s.bps / 10000.0;
  }

  // Half a cent a share, at least 1 and at most 100.
  const DEFAULT_FEES := FeeSchedule(0.0, 0.005, 0.0, 1.0, 100.0)

  lemma DefaultFees()
    ensures DEFAULT_FEES.Compute(100.0, 190.0) == 1.0 && DEFAULT_FEES.Compute(1000.0, 190.0) == 5.0
    ensures DEFAULT_FEES.Compute(50000.0, 190.0) == 100.0
  {
    FeeIsClamped(DEFAULT_FEES, 100.0, 190.0);
    FeeIsClamped(DEFAULT_FEES, 1000.0, 190.0);
    FeeIsClamped(DEFAULT_FEES, 50000.0, 190.0);
  }

  // Without negative rates the fee never falls as the quantity grows.
  lemma FeeGrows(s: FeeSchedule, qty: real, more: real, price: real)
    requires s.perShare >= 0.0 && s.bps >= 0.0 && qty <= more && price >= 0.0
    ensures s.Compute(qty, price) <= s.Compute(more, price)
  {
    assert (more - qty) * s.perShare >= 0.0;
    assert (more - qty) * price >= 0.0;
    assert ((more - qty) * price) * (s.bps / 10000.0) >= 0.0;
    RawGrows(s, qty, more, price);
  }

  lemma RawGrows(s: FeeSchedule, qty: real, more: real, price: real)
    ensures s.Raw(more, price) - s.Raw(qty, price)
         == Worth(s.perShare, more - qty) + Worth(Worth(more - qty, price), s.bps / 10000.0)
  {
    hide Worth;
    WorthAdds(s.perShare, more, qty);
    WorthMoves(more, qty, price);
    WorthMoves(Worth(more, price), Worth(qty, price), s.bps / 10000.0);
  }
}
