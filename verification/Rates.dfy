/** What a rate grants over a time, kept behind a name so that other proofs stay linear. */
module Rates {
  function Grant(rate: real, dt: real): real {
    dt * rate
  }

  lemma GrantAdds(rate: real, from: real, to: real)
    ensures Grant(rate, to) == Grant(rate, from) + Grant(rate, to - from)
  {
  }

  lemma GrantNonnegative(rate: real, dt: real)
    requires rate > 0.0 && dt >= 0.0
    ensures Grant(rate, dt) >= 0.0
  {
  }

  lemma GrantMonotone(rate: real, a: real, b: real)
    requires rate > 0.0 && a <= b
    ensures Grant(rate, a) <= Grant(rate, b)
  {
    GrantAdds(rate, a, b);
    GrantNonnegative(rate, b - a);
  }

  /** The time between two grants can be read off them. */
  lemma GrantOrder(rate: real, a: real, b: real)
    requires rate > 0.0 && Grant(rate, a) <= Grant(rate, b)
    ensures a <= b
  {
  }

  /** How long the rate takes to earn an amount. */
  function TimeFor(rate: real, amount: real): real
    requires rate > 0.0
  {
    amount / rate
  }

  lemma GrantTimeFor(rate: real, amount: real)
    requires rate > 0.0
    ensures Grant(rate, TimeFor(rate, amount)) == amount && (amount >= 0.0 ==> TimeFor(rate, amount) >= 0.0)
  {
  }

  /** A whole number at least as large. */
  function Above(x: real): (n: nat)
    ensures n as real >= x
  {
    if x < 0.0 then 0 else x.Floor + 1
  }
}
