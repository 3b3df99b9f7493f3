/**
 The view state of the dashboard component and its lifecycle: the
 initial state of the component, `resetState`, `fetchAllData`,
 `toggleBalance` and the effect that picks between fetching and resetting
 when the wallet connection changes.

 Every remote call is an abstract outcome. Each `...Of` oracle gives, for an
 endpoint, what the corresponding library call returns for the connected
 account on a connection to that endpoint. The price is one outcome, since
 its call does not go through the endpoint fallback rule. Each step runs to
 completion, so the state is observed only between steps.
 */
module DashboardState {
  import opened Outcomes
  import opened Fallback

  /** The base58 identity of the connected wallet. */
  type PublicKey = string

  datatype TokenAccount = TokenAccount(address: string, balance: real)

  datatype StakeAccount = StakeAccount(address: string, balance: real)

  /** A display-ready transaction record; its fields are used by the render. */
  datatype TransactionDetail = TransactionDetail(signature: string, message: string, status: string, date: string)

  /** The message shown to the user when any fetch of a cycle fails. */
  const FetchErrorMessage := "Error fetching data. Please try again later."

  /** The component's state fields as one value. */
  datatype ViewState = ViewState(
    solBalance: Option<real>,
    solPrice: Option<real>,
    tokenAccounts: seq<TokenAccount>,
    stakeAccounts: seq<StakeAccount>,
    loading: bool,
    error: Option<string>,
    showBalance: bool,
    transactions: seq<TransactionDetail>)

  /** The `useState` initial values, with `showBalance` as given: no data,
      empty token, stake and transaction lists, no error, not loading. */
  function Initial(showBalance: bool): (r: ViewState)
    ensures Consistent(r) && r.showBalance == showBalance
    ensures r.solBalance == None && r.solPrice == None && r.error == None
    ensures r.tokenAccounts == [] && r.stakeAccounts == [] && r.transactions == []
  {
    ViewState(None, None, [], [], false, None, showBalance, [])
  }

  /** What holds between any two steps. No fetch is in flight, the only error
      ever shown is the fixed message, and the balance and the price are set or
      cleared together. The render shows the balance card only when both are set.
      The last conjunct rests on every successful balance or price outcome
      carrying a number, never `null`. */
  predicate Consistent(s: ViewState) {
    && !s.loading
    && (s.error == None || s.error == Some(FetchErrorMessage))
    && (s.solBalance.Some? <==> s.solPrice.Some?)
  }

  /** `resetState`: every data field, the error and the loading flag go back to
      their initial values; only `showBalance` survives. */
  function Reset(s: ViewState): (r: ViewState)
    ensures r == Initial(s.showBalance)
    ensures Consistent(r)
  {
    s.(solBalance := None, solPrice := None, tokenAccounts := [], stakeAccounts := [],
       transactions := [], error := None, loading := false)
  }

  /** `toggleBalance`: flips `showBalance` and nothing else. */
  function Toggle(s: ViewState): (r: ViewState)
    ensures r.showBalance == !s.showBalance
    ensures r.(showBalance := s.showBalance) == s
    ensures Consistent(s) ==> Consistent(r)
  {
    s.(showBalance := !s.showBalance)
  }

  /** Whether the four portfolio calls of `Promise.all` all succeeded. */
  predicate BatchOk(balance: Result<real>, price: Result<real>,
                    tokens: Result<seq<TokenAccount>>, stakes: Result<seq<StakeAccount>>)
    ensures !BatchOk(balance, price, tokens, stakes) <==>
            balance.Err? || price.Err? || tokens.Err? || stakes.Err?
  {
    balance.Ok? && price.Ok? && tokens.Ok? && stakes.Ok?
  }

  /** `fetchAllData`, given the outcome of each of its five fetches. The data
      is written when the portfolio batch succeeds, and the transactions when
      their fetch also succeeds. A failure keeps whatever was there before. */
  function Fetch(s: ViewState, publicKey: Option<PublicKey>,
                 balance: Result<real>, price: Result<real>,
                 tokens: Result<seq<TokenAccount>>, stakes: Result<seq<StakeAccount>>,
                 txs: Result<seq<TransactionDetail>>): (r: ViewState)
    ensures publicKey == None ==> r == s
    ensures publicKey.Some? ==> !r.loading
    ensures publicKey.Some? ==>
              (r.error == None <==> BatchOk(balance, price, tokens, stakes) && txs.Ok?)
    ensures publicKey.Some? && r.error != None ==> r.error == Some(FetchErrorMessage)
    ensures publicKey.Some? && r.error == None ==>
              && r.solBalance == Some(balance.value) && r.solPrice == Some(price.value)
              && r.tokenAccounts == tokens.value && r.stakeAccounts == stakes.value
              && r.transactions == txs.value
    ensures r.showBalance == s.showBalance
    ensures Consistent(s) ==> Consistent(r)
  {
    if publicKey == None then s
    else
      // setLoading(true); setError(null)
      var started := s.(loading := true, error := None);
      if !BatchOk(balance, price, tokens, stakes) then
        started.(error := Some(FetchErrorMessage), loading := false)
      else
        var written := started.(solBalance := Some(balance.value), solPrice := Some(price.value),
                                tokenAccounts := tokens.value, stakeAccounts := stakes.value);
        if txs.Err? then written.(error := Some(FetchErrorMessage), loading := false)
        else written.(transactions := txs.value, loading := false)
  }

  /** The connection effect: fetch when connected with a known key, reset otherwise. */
  function OnConnection(s: ViewState, connected: bool, publicKey: Option<PublicKey>,
                        balance: Result<real>, price: Result<real>,
                        tokens: Result<seq<TokenAccount>>, stakes: Result<seq<StakeAccount>>,
                        txs: Result<seq<TransactionDetail>>): (r: ViewState)
    ensures !(connected && publicKey.Some?) ==> r == Initial(s.showBalance)
    ensures connected && publicKey.Some? ==> r == Fetch(s, publicKey, balance, price, tokens, stakes, txs)
    ensures Consistent(s) ==> Consistent(r)
  {
    if connected && publicKey.Some? then Fetch(s, publicKey, balance, price, tokens, stakes, txs)
    else Reset(s)
  }

  /** A successful cycle replaces the data outright: the result does not depend
      on the state before it, beyond `showBalance`. */
  lemma SuccessfulFetchReplacesAll(s: ViewState, t: ViewState, key: PublicKey,
                                   balance: Result<real>, price: Result<real>,
                                   tokens: Result<seq<TokenAccount>>, stakes: Result<seq<StakeAccount>>,
                                   txs: Result<seq<TransactionDetail>>)
    requires s.showBalance == t.showBalance
    requires BatchOk(balance, price, tokens, stakes) && txs.Ok?
    ensures Fetch(s, Some(key), balance, price, tokens, stakes, txs)
         == Fetch(t, Some(key), balance, price, tokens, stakes, txs)
  {
  }

  /** A failed portfolio batch leaves every data field as it was. */
  lemma FailedBatchKeepsData(s: ViewState, key: PublicKey,
                             balance: Result<real>, price: Result<real>,
                             tokens: Result<seq<TokenAccount>>, stakes: Result<seq<StakeAccount>>,
                             txs: Result<seq<TransactionDetail>>)
    requires !BatchOk(balance, price, tokens, stakes)
    ensures var r := Fetch(s, Some(key), balance, price, tokens, stakes, txs);
            r == s.(loading := false, error := Some(FetchErrorMessage))
  {
  }

  /** A failed transaction fetch after a successful batch leaves the new
      portfolio next to the transactions of an earlier cycle. */
  lemma FailedTransactionsKeepNewPortfolio(s: ViewState, key: PublicKey,
                                           balance: Result<real>, price: Result<real>,
                                           tokens: Result<seq<TokenAccount>>, stakes: Result<seq<StakeAccount>>,
                                           txs: Result<seq<TransactionDetail>>)
    requires BatchOk(balance, price, tokens, stakes) && txs.Err?
    ensures var r := Fetch(s, Some(key), balance, price, tokens, stakes, txs);
            && r.solBalance == Some(balance.value) && r.solPrice == Some(price.value)
            && r.tokenAccounts == tokens.value && r.stakeAccounts == stakes.value
            && r.transactions == s.transactions
            && r.error == Some(FetchErrorMessage)
  {
  }

  /** Toggling twice restores the state, and toggling commutes with every other
      step: it never touches data and never triggers a fetch. */
  lemma ToggleIsIndependent(s: ViewState, connected: bool, publicKey: Option<PublicKey>,
                            balance: Result<real>, price: Result<real>,
                            tokens: Result<seq<TokenAccount>>, stakes: Result<seq<StakeAccount>>,
                            txs: Result<seq<TransactionDetail>>)
    ensures Toggle(Toggle(s)) == s
    ensures Reset(Toggle(s)) == Toggle(Reset(s))
    ensures Fetch(Toggle(s), publicKey, balance, price, tokens, stakes, txs)
         == Toggle(Fetch(s, publicKey, balance, price, tokens, stakes, txs))
  {
  }

  /** The dashboard component's state, updated in place by its handlers. */
  class Dashboard {
    var solBalance: Option<real>
    var solPrice: Option<real>
    var tokenAccounts: seq<TokenAccount>
    var stakeAccounts: seq<StakeAccount>
    var loading: bool
    var error: Option<string>
    var showBalance: bool
    var transactions: seq<TransactionDetail>

    function State(): ViewState
      reads this
    {
      ViewState(solBalance, solPrice, tokenAccounts, stakeAccounts, loading, error, showBalance, transactions)
    }

    ghost predicate Valid()
      reads this
    {
      Consistent(State())
    }

    /** Mounting the component: every `useState` initial value. */
    constructor ()
      ensures Valid()
      ensures State() == Initial(false)
    {
      solBalance, solPrice := None, None;
      tokenAccounts, stakeAccounts := [], [];
      loading, error := false, None;
      showBalance := false;
      transactions := [];
    }

    /** `resetState`. */
    method ResetState()
      requires Valid()
      modifies this
      ensures Valid()
      ensures State() == Reset(old(State()))
      ensures State() == Initial(old(showBalance))
    {
      solBalance := None;
      solPrice := None;
      tokenAccounts := [];
      stakeAccounts := [];
      transactions := [];
      error := None;
      loading := false;
    }

    /** `toggleBalance`. */
    method ToggleBalance()
      requires Valid()
      modifies this`showBalance
      ensures Valid()
      ensures State() == Toggle(old(State()))
      ensures showBalance == !old(showBalance)
    {
      showBalance := !showBalance;
    }

    /** `fetchAllData`. All calls of the `Promise.all` batch are made; when any
        of them failed, the batch's writes are skipped. The transaction fetch
        runs only after the batch succeeded. */
    method FetchAllData(publicKey: Option<PublicKey>, endpoints: seq<Option<string>>,
                        balanceOf: string -> Result<real>, price: Result<real>,
                        tokensOf: string -> Result<seq<TokenAccount>>,
                        stakesOf: string -> Result<seq<StakeAccount>>,
                        transactionsOf: string -> Result<seq<TransactionDetail>>)
      requires Valid()
      modifies this
      ensures Valid()
      ensures State() == Fetch(old(State()), publicKey,
                               FirstSuccess(endpoints, balanceOf), price,
                               FirstSuccess(endpoints, tokensOf), FirstSuccess(endpoints, stakesOf),
                               FirstSuccess(endpoints, transactionsOf))
    {
      if publicKey == None {
        return;
      }
      loading := true;
      error := None;
      var balance, _ := TryEndpoints(endpoints, balanceOf);
      var tokens, _ := TryEndpoints(endpoints, tokensOf);
      var stakes, _ := TryEndpoints(endpoints, stakesOf);
      if !BatchOk(balance, price, tokens, stakes) {
        error := Some(FetchErrorMessage);
      } else {
        solBalance := Some(balance.value);
        solPrice := Some(price.value);
        tokenAccounts := tokens.value;
        stakeAccounts := stakes.value;
        var txs, _ := TryEndpoints(endpoints, transactionsOf);
        if txs.Err? {
          error := Some(FetchErrorMessage);
        } else {
          transactions := txs.value;
        }
      }
      loading := false;
    }

    /** The effect on `[connected, publicKey]`. */
    method OnConnectionChange(connected: bool, publicKey: Option<PublicKey>, endpoints: seq<Option<string>>,
                              balanceOf: string -> Result<real>, price: Result<real>,
                              tokensOf: string -> Result<seq<TokenAccount>>,
                              stakesOf: string -> Result<seq<StakeAccount>>,
                              transactionsOf: string -> Result<seq<TransactionDetail>>)
      requires Valid()
      modifies this
      ensures Valid()
      ensures State() == OnConnection(old(State()), connected, publicKey,
                                      FirstSuccess(endpoints, balanceOf), price,
                                      FirstSuccess(endpoints, tokensOf), FirstSuccess(endpoints, stakesOf),
                                      FirstSuccess(endpoints, transactionsOf))
    {
      if connected && publicKey.Some? {
        FetchAllData(publicKey, endpoints, balanceOf, price, tokensOf, stakesOf, transactionsOf);
      } else {
        ResetState();
      }
    }
  }
}
