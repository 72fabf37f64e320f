/**
 * `main` once `--yes` is given: load the credential file, check it, format
 * the mobile number, generate the TOTP code, log in, validate, and place the
 * order. The generated TOTP code (`None` when generation raised), the clock
 * reading used in the default tag and the three replies of the broker are
 * parameters; the requests the run sends are its record of what went over
 * the network.
 */
module Cli {
  import opened Wrappers
  import opened Wire
  import opened Credentials
  import opened Handshake
  import opened Orders

  /** The command-line flags after parsing. */
  datatype Args = Args(
    segment: string,
    symbol: string,
    tt: string,
    product: string,
    order: string,
    qty: int,
    price: Option<string>,
    tag: Option<string>)

  /** A request the run sent: a JSON POST of the handshake or the form POST of the order. */
  datatype Call = JsonPost(request: Request) | FormPost(post: OrderPost)

  /** Why the run ended with exit status 1. */
  datatype CliError =
    | MissingCredentials
    | TotpFailed
    | LoginFailed(cause: HandshakeError)
    | ValidateFailed(cause: HandshakeError)
    | OrderRefused(reason: OrderError)
    | OrderRequestFailed

  const TagPrefix := "ORDER_CLI_NO_SDK_"

  /** `args.tag or f"ORDER_CLI_NO_SDK_{stamp}"`, where `stamp` is the formatted current time. */
  function RunTag(tag: Option<string>, stamp: string): (t: string)
    ensures t != ""
    ensures tag.Some? && tag.value != "" ==> t == tag.value
  {
    if tag.Some? && tag.value != "" then tag.value else TagPrefix + stamp
  }

  /** The order `main` hands to `place_order`. */
  function RunOrder(args: Args, stamp: string): OrderRequest {
    OrderRequest(args.segment, args.symbol, args.tt, args.product, args.order, args.qty, args.price, Some(RunTag(args.tag, stamp)))
  }

  /** The settings read from the credential file, if they are complete. */
  function LoadedConfig(lines: seq<string>): Option<Config> {
    RequiredConfig(Loaded(lines))
  }

  method Run(
    args: Args, lines: seq<string>, totpCode: Option<string>, stamp: string,
    loginReply: Reply, validateReply: Reply, orderReply: Reply)
    returns (calls: seq<Call>, result: Result<map<string, string>, CliError>)
    ensures |calls| <= 3
    // Nothing is sent unless the credential file is complete and a TOTP code was generated.
    ensures calls == [] <==> LoadedConfig(lines).None? || totpCode.None?
    ensures LoadedConfig(lines).None? ==> result == Failure(MissingCredentials)
    ensures LoadedConfig(lines).Some? && totpCode.None? ==> result == Failure(TotpFailed)
    // First the login, with the formatted mobile number and the TOTP code.
    ensures |calls| >= 1 ==>
      var cfg := LoadedConfig(lines).value;
      totpCode.Some? &&
      calls[0] == JsonPost(LoginRequest(cfg.consumerKey, cfg.neoFinKey, FormattedMobile(cfg.mobile), cfg.ucc, totpCode.value))
    ensures |calls| == 1 ==> LoginOutcome(loginReply).Failure? && result == Failure(LoginFailed(LoginOutcome(loginReply).error))
    // Then the validate step, only after an accepted login and with its token and sid.
    ensures |calls| >= 2 ==>
      var cfg, view := LoadedConfig(lines).value, LoginOutcome(loginReply);
      view.Success? &&
      calls[1] == JsonPost(ValidateRequest(cfg.consumerKey, cfg.neoFinKey, view.value.sid, view.value.viewToken, cfg.mpin))
    ensures |calls| == 2 ==>
      result.Failure? &&
      if ValidateOutcome(validateReply).Failure?
      then result.error == ValidateFailed(ValidateOutcome(validateReply).error)
      else result.error == OrderRefused(LimitWithoutPrice) && LacksLimitPrice(RunOrder(args, stamp))
    // The order goes out only after both handshake steps, on the validated session.
    ensures |calls| == 3 ==>
      var edit := ValidateOutcome(validateReply);
      edit.Success? && !LacksLimitPrice(RunOrder(args, stamp)) && calls[2].FormPost? &&
      calls[2].post.url == edit.value.baseUrl + "/" + PlaceOrderEndpoint &&
      calls[2].post.headers == OrderHeaders(edit.value) &&
      calls[2].post.jData == BuildOrderData(RunOrder(args, stamp)) &&
      calls[2].post.query == (if edit.value.serverId != "" then map["sId" := edit.value.serverId] else map[])
    ensures |calls| == 3 ==>
      (result.Success? <==> orderReply.Answered?) &&
      (result.Success? ==> result.value == orderReply.data) &&
      (result.Failure? ==> result.error == OrderRequestFailed)
    ensures result.Success? ==> |calls| == 3
    // A limit order without a price is never sent, but the handshake is still carried out first.
    ensures LacksLimitPrice(RunOrder(args, stamp)) ==> |calls| <= 2 && result.Failure?
    ensures
      (LacksLimitPrice(RunOrder(args, stamp)) && LoadedConfig(lines).Some? && totpCode.Some? &&
       LoginOutcome(loginReply).Success? && ValidateOutcome(validateReply).Success?)
      ==> |calls| == 2
  {
    calls := [];
    var creds := LoadCredentials(lines);
    var config := RequiredConfig(creds);
    if config.None? {
      result := Failure(MissingCredentials);
      return;
    }
    var cfg := config.value;
    var mobile := FormatMobile(cfg.mobile);
    if totpCode.None? {
      result := Failure(TotpFailed);
      return;
    }

    var login := JsonPost(LoginRequest(cfg.consumerKey, cfg.neoFinKey, mobile, cfg.ucc, totpCode.value));
    calls := [login];
    var view := LoginOutcome(loginReply);
    if view.Failure? {
      result := Failure(LoginFailed(view.error));
      return;
    }

    var validate := JsonPost(ValidateRequest(cfg.consumerKey, cfg.neoFinKey, view.value.sid, view.value.viewToken, cfg.mpin));
    calls := [login, validate];
    var edit := ValidateOutcome(validateReply);
    if edit.Failure? {
      result := Failure(ValidateFailed(edit.error));
      return;
    }

    var placed := PlaceOrder(edit.value, RunOrder(args, stamp));
    if placed.Failure? {
      result := Failure(OrderRefused(placed.error));
      return;
    }
    calls := [login, validate, FormPost(placed.value)];
    match orderReply {
      case Answered(data) =>
        result := Success(data);
      case NoAnswer =>
        result := Failure(OrderRequestFailed);
    }
  }
}
