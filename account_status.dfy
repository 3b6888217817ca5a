/** What one trade does to a prop-firm account (src/simulator/prop_account/mod.rs):
    it blows the account, leaves it active, or passes the evaluation.
    `Blown` and `Active` carry the amount the balance moved by. */
module Status {

  datatype AccountStatus = Blown(amount: real) | Active(amount: real) | PassedEval
}
