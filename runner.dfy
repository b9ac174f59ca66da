/**
 * `main` of main.js: read the account list, run every account's check-in,
 * and turn the settled outcomes into the process exit code.
 */
module Runner {
  import opened Wrappers
  import opened Json
  import opened Sites
  import opened CheckIn

  /** What the network answers to the sign-in request of one account. */
  datatype Exchange = Exchange(transport: Transport, body: Body)

  /** What `JSON.parse(process.env.ACCOUNTS)` produces. */
  datatype Config =
    | Unparseable                    // JSON.parse throws
    | Accounts(list: seq<Account>)

  /** The settled promise of one account: its value or its rejection. */
  type Settled = Result<Option<Json>, CheckInError>

  datatype ConfigError = NotConfigured | BadFormat

  /** How a run ends: stopped before any check-in, or with one outcome per account. */
  datatype Report =
    | Aborted(reason: ConfigError)
    | Completed(outcomes: seq<Settled>)

  /** `CheckIn.CheckIn` with the network's answer unpacked from an `Exchange`; nothing more. */
  function Attempt(account: Account, exchange: Exchange): Settled
  {
    CheckIn.CheckIn(account, exchange.transport, exchange.body)
  }

  /** Some account's check-in was rejected. */
  ghost predicate AnyRejected(outcomes: seq<Settled>)
  {
    exists i :: 0 <= i < |outcomes| && outcomes[i].Failure?
  }

  /** `if (process.env.ACCOUNTS)`: an unset or empty variable is not configured. */
  predicate Configured(env: Option<string>)
  {
    env.Some? && env.value != ""
  }

  /**
   * `main()`. `env` is `process.env.ACCOUNTS`, `parse` stands for `JSON.parse`
   * and `network(i)` for what the network answers the i-th account. The
   * concurrent `Promise.allSettled` is a map over the accounts: each branch
   * writes only its own index. The exit code is 1 exactly when the
   * configuration is missing or malformed or some check-in was rejected.
   */
  method Run(env: Option<string>, parse: string -> Config, network: nat -> Exchange)
    returns (report: Report, exit: nat)
    ensures !Configured(env) ==> report == Aborted(NotConfigured) && exit == 1
    ensures Configured(env) && parse(env.value).Unparseable? ==> report == Aborted(BadFormat) && exit == 1
    ensures Configured(env) && parse(env.value).Accounts? ==>
      var accounts := parse(env.value).list;
      && report.Completed?
      && |report.outcomes| == |accounts|
      && (forall i :: 0 <= i < |accounts| ==> report.outcomes[i] == Attempt(accounts[i], network(i)))
    ensures report.Completed? ==> (exit == 1 <==> AnyRejected(report.outcomes))
    ensures exit == 0 || exit == 1
  {
    var accounts: seq<Account>;
    if Configured(env) {
      var config := parse(env.value);
      if config.Unparseable? {
        return Aborted(BadFormat), 1;
      }
      accounts := config.list;
    } else {
      return Aborted(NotConfigured), 1;
    }

    var results := seq(|accounts|, i requires 0 <= i < |accounts| => Attempt(accounts[i], network(i)));

    var hasError := false;
    for index := 0 to |results|
      invariant hasError <==> exists j :: 0 <= j < index && results[j].Failure?
    {
      if results[index].Failure? {
        hasError := true;
      }
    }

    report := Completed(results);
    exit := if hasError then 1 else 0;
  }

  // ---- End-to-end scenarios ----

  /** A 200 reply whose body is `{"code": code, "message": text}`, as HiFiTi answers. */
  function HiFiTiReply(code: string, text: string): Exchange
  {
    Exchange(Reply(200), Parsed(JObject(map["code" := JString(code), "message" := JString(text)])))
  }

  /** A first sign-in succeeds with the site's message; a repeat on the same day succeeds too. */
  lemma SingleAccountScenarios()
    ensures Attempt(Account("A", "hifiti", "x"), HiFiTiReply("0", "签到成功")) == Success(Some(JString("签到成功")))
    ensures Attempt(Account("A", "hifiti", "x"), HiFiTiReply("1", HiFiTiAlreadySigned))
         == Success(Some(JString(HiFiTiAlreadySigned)))
  {
  }

  /**
   * Two accounts, the first answered with success and the second with HTTP
   * 500: the first is still reported as success, and the run exits with 1.
   */
  method TwoAccountRun() returns (report: Report, exit: nat)
    ensures report.Completed? && |report.outcomes| == 2
    ensures report.outcomes[0] == Success(Some(JString("签到成功")))
    ensures report.outcomes[1] == Failure(NetworkError(500))
    ensures exit == 1
  {
    var text := "[{\"name\":\"A\",\"site\":\"hifiti\",\"cookie\":\"x\"},"
              + "{\"name\":\"B\",\"site\":\"binmt\",\"cookie\":\"y\"}]";
    var accounts := [Account("A", "hifiti", "x"), Account("B", "binmt", "y")];
    report, exit := Run(Some(text), t => if t == text then Accounts(accounts) else Unparseable,
                        i => if i == 0 then HiFiTiReply("0", "签到成功") else Exchange(Reply(500), Malformed));
    assert report.outcomes[1].Failure?;
  }
}
