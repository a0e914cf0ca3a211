/** USDG limits over UTC-day windows (spending.rs). */
module Spending {
  import opened Primitives

  const SECONDS_PER_DAY: nat := 86_400

  datatype SpendError = PerTxCapExceeded | DailyCapExceeded

  /** A day, counted from the epoch, and the USDG recorded on it. */
  datatype Window = Window(day: nat, spent: u256) {
    /** What already counts on the day of `now`. */
    function Already(now: nat): u256 {
      if day == now / SECONDS_PER_DAY then spent else 0
    }
  }

  /** Records a payment or a fee; both caps refuse it, the per-transaction one first. */
  function Spend(perTxCap: u256, dailyCap: u256, window: Window, now: nat, amount: u256): (r: Result<Window, SpendError>)
  {
    if amount > perTxCap then Err(PerTxCapExceeded)
    else
      var total := window.Already(now) + amount;
      if total < TWO_256 && total <= dailyCap then Ok(Window(now / SECONDS_PER_DAY, total))
      else Err(DailyCapExceeded)
  }

  datatype Charge = Charge(window: Window, charged: u256)

  /** Records as much of a safety action's fee as fits the day. */
  function ChargeFee(dailyCap: u256, window: Window, now: nat, fee: u256): (c: Charge)
  {
    var already := window.Already(now);
    var room := if already <= dailyCap then dailyCap - already else 0;
    var charged := Min(fee, room);
    Charge(Window(now / SECONDS_PER_DAY, already + charged), charged)
  }
}
