/** What the concrete runs share: a small configuration, a genesis file and signed transactions at time zero. */
module Demo {
  import opened Numbers
  import opened Rules
  import opened ChainState
  import opened Executor

  /** A cap of 1000, a minimum stake of 10, one vote to settle, administrator 1 and treasury 2. */
  const DEMO_PARAMS := Params(1000, 10, 0, 1, 1, 2, 50, 70, 20, 10)

  const DEMO_BALANCES := [GenesisBalance(1, 500)]

  function DemoInput(from: Address, nonce: uint64, body: Body): Input {
    Input(Tx(nonce, from, nonce, body, true), 0)
  }

  /** A run reaches the states it was written down with. */
  lemma {:induction false} Traced(p: Params, states: seq<State>, inputs: seq<Input>, n: nat)
    requires n < |states| && n <= |inputs|
    requires forall k: nat :: k < n ==> After(p, states[k], inputs[k]) == states[k + 1]
    ensures Run(p, states[0], inputs[..n]) == states[n]
    decreases n
  {
    hide After;
    if n == 0 {
      assert inputs[..0] == [];
    } else {
      Traced(p, states, inputs, n - 1);
      RunGrows(p, states[0], inputs, n - 1);
    }
  }
}
