/**
 * The `analyze-items` edge function (supabase/functions/analyze-items/index.ts).
 *
 * The handler answers CORS pre-flight requests, authenticates the caller,
 * then asks the AI gateway about every image URL in order and stores each
 * structured answer as an inventory row owned by the caller. The first
 * gateway failure or insert failure ends the request with status 500; rows
 * stored before it stay stored.
 *
 * Everything outside the function is an oracle in `Environment`: the API key
 * from the process environment, the identity provider, the gateway and the
 * database insert. The gateway is asked with the number of the call and the
 * insert with the number of the insert, so their answers may change from one
 * call to the next. What the handler does to the outside world is returned
 * as a log of `Effect`s.
 */
module AnalyzeItems {
  import opened Wrappers
  import opened Types
  import opened Strings
  import opened Lists

  /** The arguments of the `extract_item_details` tool call. */
  datatype ItemDetails = ItemDetails(
    name: string,
    description: string,
    category: string,
    estimatedValue: real,
    condition: string,
    brand: Option<string>,
    model: Option<string>,
    color: Option<string>)

  /**
   * A gateway reply: a non-2xx status; a request or reply that throws before
   * the tool call is read (a rejected `fetch`, a body that is not JSON or has
   * no `choices[0].message`, or tool arguments that are not JSON), carrying
   * the message of what was thrown; an answer without a tool call; or the
   * tool's arguments.
   */
  datatype GatewayReply = NotOk | Malformed(message: string) | NoToolCall | Details(details: ItemDetails)

  /** `insert(...).select().single()`: the stored row, or an error with the message it reports. */
  datatype InsertOutcome = InsertOk(row: ItemRow) | InsertErr(message: string)

  /** `auth.getUser(token)`: whether it reported an error, and the user it returned, if any. */
  datatype UserLookup = UserLookup(failed: bool, user: Option<AuthUser>)

  datatype Environment = Environment(
    apiKey: Option<string>,
    getUser: string -> UserLookup,
    gateway: (nat, string) -> GatewayReply,
    insert: (nat, ItemInsert) -> InsertOutcome)

  /**
   * The `imageUrls` property of the body: the values `for...of` visits (the
   * elements of an array, or the characters of a string), or a value it
   * cannot iterate, such as a missing property, with the message thrown.
   */
  datatype ImageUrls = Urls(urls: seq<string>) | NotIterable(message: string)

  /**
   * The request body: JSON that `req.json()` rejects, or a parsed value that
   * cannot be destructured (`null`), with the message thrown; or a parsed
   * object.
   */
  datatype RequestBody = Unparsable(message: string) | Json(imageUrls: ImageUrls)

  datatype Request = Request(httpMethod: string, authorization: Option<string>, body: RequestBody)

  /** What the handler does outside itself, in order. */
  datatype Effect =
    | ReadBody
    | AskedIdentity(token: string)
    | AskedGateway(url: string)
    | Inserted(row: ItemInsert)

  datatype ResponseBody = NoBody | Items(items: seq<ItemRow>) | ErrorMessage(error: string)

  /** Every response carries the CORS headers; `cors` records that they are present. */
  datatype Response = Response(status: nat, cors: bool, body: ResponseBody)

  const MissingKeyMessage := "LOVABLE_API_KEY not configured"
  const MissingHeaderMessage := "No authorization header"
  const UnauthorizedMessage := "Unauthorized"
  const GatewayFailedMessage := "AI analysis failed"
  const BearerPrefix := "Bearer "

  const PreflightResponse := Response(200, true, NoBody)

  /** `{ success: true, items }` with the CORS headers and the default status 200. */
  function SuccessResponse(items: seq<ItemRow>): Response {
    Response(200, true, Items(items))
  }

  /** `{ error: message }` with the CORS headers and status 500. */
  function ErrorResponse(message: string): Response {
    Response(500, true, ErrorMessage(message))
  }

  /** `authHeader.replace('Bearer ', '')`: the header without its first `"Bearer "`. */
  function BearerToken(header: string): string {
    ReplaceFirst(header, BearerPrefix, "")
  }

  /** The usual header `Bearer <token>` yields `<token>`. */
  lemma BearerTokenOfStandardHeader(token: string)
    ensures BearerToken(BearerPrefix + token) == token
  {
    ReplaceFirstAtStart(BearerPrefix, token, "");
  }

  /**
   * Only the first `"Bearer "` is removed, wherever it stands; a header
   * without one is passed on unchanged.
   */
  lemma BearerTokenRemovesFirst(header: string)
    ensures !Includes(header, BearerPrefix) ==> BearerToken(header) == header
    ensures Includes(header, BearerPrefix) ==>
              var i := IndexOf(header, BearerPrefix).value;
              OccursAt(header, BearerPrefix, i)
              && (forall j :: 0 <= j < i ==> !OccursAt(header, BearerPrefix, j))
              && BearerToken(header) == header[..i] + header[i + |BearerPrefix|..]
  {
  }

  /** The insert object built from one extraction. */
  function DetailsToInsert(userId: string, imageUrl: string, d: ItemDetails): ItemInsert {
    ItemInsert(
      brand := Given(NullIfEmpty(d.brand)),
      category := Given(Some(d.category)),
      color := Given(NullIfEmpty(d.color)),
      condition := Given(Some(d.condition)),
      createdAt := Omitted,
      description := Given(Some(d.description)),
      estimatedValue := Given(Some(d.estimatedValue)),
      id := Omitted,
      imageUrl := Given(Some(imageUrl)),
      model := Given(NullIfEmpty(d.model)),
      name := d.name,
      purchaseDate := Omitted,
      purchasePrice := Omitted,
      roomLocation := Omitted,
      serialNumber := Omitted,
      updatedAt := Omitted,
      userId := userId)
  }

  /**
   * The owner and the image come from the handler, never from the gateway;
   * brand, model and colour are null exactly when missing or empty; the other
   * extracted fields are copied as they are.
   */
  lemma DetailsToInsertFields(userId: string, imageUrl: string, d: ItemDetails)
    ensures var ins := DetailsToInsert(userId, imageUrl, d);
      && ins.userId == userId && ins.imageUrl == Given(Some(imageUrl))
      && ins.name == d.name && ins.description == Given(Some(d.description))
      && ins.category == Given(Some(d.category)) && ins.condition == Given(Some(d.condition))
      && ins.estimatedValue == Given(Some(d.estimatedValue))
      && (ins.brand == Given(None) <==> d.brand.None? || d.brand.value == "")
      && (ins.model == Given(None) <==> d.model.None? || d.model.value == "")
      && (ins.color == Given(None) <==> d.color.None? || d.color.value == "")
      && (Truthy(d.brand) ==> ins.brand == Given(d.brand))
      && (Truthy(d.model) ==> ins.model == Given(d.model))
      && (Truthy(d.color) ==> ins.color == Given(d.color))
  {
  }

  // ---------------------------------------------------------------- the loop over imageUrls

  /** The loop's state: the error that ended it, if any, the pushed rows and the effects so far. */
  datatype LoopState = LoopState(failure: Option<string>, results: seq<ItemRow>, effects: seq<Effect>)

  /** One iteration for the URL at position `k`; a loop that already threw does nothing more. */
  function Step(st: LoopState, userId: string, k: nat, url: string, env: Environment): LoopState {
    if st.failure.Some? then st
    else
      match env.gateway(k, url)
      case NotOk =>
        LoopState(Some(GatewayFailedMessage), st.results, st.effects + [AskedGateway(url)])
      case Malformed(m) =>
        LoopState(Some(m), st.results, st.effects + [AskedGateway(url)])
      case NoToolCall =>
        LoopState(None, st.results, st.effects + [AskedGateway(url)])
      case Details(d) =>
        var ins := DetailsToInsert(userId, url, d);
        var effects := st.effects + [AskedGateway(url), Inserted(ins)];
        match env.insert(|st.results|, ins)
        case InsertErr(m) => LoopState(Some(m), st.results, effects)
        case InsertOk(row) => LoopState(None, st.results + [row], effects)
  }

  /** The loop run over `urls` from the empty `results` array. */
  function Run(userId: string, urls: seq<string>, env: Environment): LoopState
    decreases |urls|
  {
    if urls == [] then LoopState(None, [], [])
    else Step(Run(userId, urls[..|urls| - 1], env), userId, |urls| - 1, urls[|urls| - 1], env)
  }

  function GatewayUrl(e: Effect): Option<string> {
    if e.AskedGateway? then Some(e.url) else None
  }

  function InsertedRow(e: Effect): Option<ItemInsert> {
    if e.Inserted? then Some(e.row) else None
  }

  /** The URLs the gateway was asked about, in order. */
  function AskedUrls(effects: seq<Effect>): seq<string> {
    Project(effects, GatewayUrl)
  }

  /** The insert objects sent to the database, in order. */
  function InsertsMade(effects: seq<Effect>): seq<ItemInsert> {
    Project(effects, InsertedRow)
  }

  /** Neither the gateway nor the database was touched. */
  predicate NoExternalWork(effects: seq<Effect>) {
    forall i :: 0 <= i < |effects| ==> !effects[i].AskedGateway? && !effects[i].Inserted?
  }

  /** Every insert is owned by `userId` and names the image of the gateway call just before it. */
  predicate InsertsTagged(userId: string, effects: seq<Effect>) {
    forall i :: 0 <= i < |effects| && effects[i].Inserted? ==>
      0 < i && effects[i - 1].AskedGateway?
      && effects[i].row.userId == userId
      && effects[i].row.imageUrl == Given(Some(effects[i - 1].url))
  }

  lemma PrefixOfPrefix(urls: seq<string>, n: nat)
    requires n < |urls|
    ensures urls[..n + 1][..n] == urls[..n] && urls[..n + 1][n] == urls[n]
  {
  }

  /** Once the loop has thrown, the remaining URLs change nothing. */
  lemma {:induction false} FailureIsFinal(userId: string, urls: seq<string>, n: nat, env: Environment)
    requires n <= |urls| && Run(userId, urls[..n], env).failure.Some?
    ensures Run(userId, urls, env) == Run(userId, urls[..n], env)
    decreases |urls|
  {
    if n < |urls| {
      var init := urls[..|urls| - 1];
      assert init[..n] == urls[..n];
      FailureIsFinal(userId, init, n, env);
    } else {
      assert urls[..n] == urls;
    }
  }

  /** The effects one iteration adds when the loop has not thrown yet. */
  function StepEffects(userId: string, k: nat, url: string, env: Environment): seq<Effect> {
    match env.gateway(k, url)
    case Details(d) => [AskedGateway(url), Inserted(DetailsToInsert(userId, url, d))]
    case _ => [AskedGateway(url)]
  }

  /** The insert objects one iteration sends. */
  function StepInserts(userId: string, k: nat, url: string, env: Environment): seq<ItemInsert> {
    match env.gateway(k, url)
    case Details(d) => [DetailsToInsert(userId, url, d)]
    case _ => []
  }

  /** An iteration asks the gateway once, about its own URL, and inserts at most once. */
  lemma StepShape(st: LoopState, userId: string, k: nat, url: string, env: Environment)
    requires st.failure.None?
    ensures Step(st, userId, k, url, env).effects == st.effects + StepEffects(userId, k, url, env)
    ensures AskedUrls(Step(st, userId, k, url, env).effects) == AskedUrls(st.effects) + [url]
    ensures InsertsMade(Step(st, userId, k, url, env).effects)
            == InsertsMade(st.effects) + StepInserts(userId, k, url, env)
  {
    var added := StepEffects(userId, k, url, env);
    ProjectAppend(st.effects, added, GatewayUrl);
    ProjectAppend(st.effects, added, InsertedRow);
    var asked := [AskedGateway(url)];
    assert asked[..0] == [];
    if env.gateway(k, url).Details? {
      var ins := [Inserted(DetailsToInsert(userId, url, env.gateway(k, url).details))];
      assert ins[..0] == [];
      assert added == asked + ins;
      ProjectAppend(asked, ins, GatewayUrl);
      ProjectAppend(asked, ins, InsertedRow);
    }
  }

  /**
   * The gateway is asked about a prefix of `urls`, in order, once per URL;
   * about every URL when the loop completes.
   */
  lemma {:induction false} RunAsksInOrder(userId: string, urls: seq<string>, env: Environment)
    ensures var asked := AskedUrls(Run(userId, urls, env).effects);
      |asked| <= |urls| && asked == urls[..|asked|]
    ensures Run(userId, urls, env).failure.None? ==> AskedUrls(Run(userId, urls, env).effects) == urls
    decreases |urls|
  {
    if urls != [] {
      var init := urls[..|urls| - 1];
      var prev := Run(userId, init, env);
      RunAsksInOrder(userId, init, env);
      if prev.failure.None? {
        StepShape(prev, userId, |urls| - 1, urls[|urls| - 1], env);
        assert urls == init + [urls[|urls| - 1]];
      } else {
        var asked := AskedUrls(prev.effects);
        assert init[..|asked|] == urls[..|asked|];
      }
    }
  }

  /**
   * One insert per pushed row, plus the failed one if the loop ended on an
   * insert error; never more inserts than gateway calls; and each pushed row
   * is the one the database returned for that insert.
   */
  lemma {:induction false} RunInsertsAnswered(userId: string, urls: seq<string>, env: Environment)
    ensures var st := Run(userId, urls, env);
      var ins := InsertsMade(st.effects);
      && |st.results| <= |ins| <= |AskedUrls(st.effects)|
      && (st.failure.None? ==> |ins| == |st.results|)
      && |ins| <= |st.results| + 1
      && forall j :: 0 <= j < |st.results| ==> env.insert(j, ins[j]) == InsertOk(st.results[j])
    decreases |urls|
  {
    if urls != [] {
      var init := urls[..|urls| - 1];
      var prev := Run(userId, init, env);
      RunInsertsAnswered(userId, init, env);
      if prev.failure.None? {
        StepShape(prev, userId, |urls| - 1, urls[|urls| - 1], env);
      }
    }
  }

  /** Every insert is owned by the caller and names the URL being processed. */
  lemma {:induction false} RunInsertsTagged(userId: string, urls: seq<string>, env: Environment)
    ensures InsertsTagged(userId, Run(userId, urls, env).effects)
    decreases |urls|
  {
    if urls != [] {
      RunInsertsTagged(userId, urls[..|urls| - 1], env);
    }
  }

  /**
   * Nothing is ever taken back: the effects and rows of any prefix of the
   * run are a prefix of those of the whole run, so rows stored before a
   * failure stay stored.
   */
  lemma {:induction false} RunNoRollback(userId: string, urls: seq<string>, n: nat, env: Environment)
    requires n <= |urls|
    ensures var early := Run(userId, urls[..n], env);
      var full := Run(userId, urls, env);
      early.effects <= full.effects && early.results <= full.results
    decreases |urls|
  {
    if n < |urls| {
      var init := urls[..|urls| - 1];
      assert init[..n] == urls[..n];
      RunNoRollback(userId, init, n, env);
    } else {
      assert urls[..n] == urls;
    }
  }

  /** A reply without a tool call adds no row, asks nothing of the database and does not stop the loop. */
  lemma NoToolCallIsSkipped(userId: string, urls: seq<string>, n: nat, env: Environment)
    requires n < |urls| && Run(userId, urls[..n], env).failure.None?
    requires env.gateway(n, urls[n]) == NoToolCall
    ensures var before := Run(userId, urls[..n], env);
      Run(userId, urls[..n + 1], env)
      == LoopState(None, before.results, before.effects + [AskedGateway(urls[n])])
  {
    PrefixOfPrefix(urls, n);
  }

  /** A non-ok or unreadable reply, or an insert error, at position `n` ends the loop with that error. */
  lemma FailureAtStops(userId: string, urls: seq<string>, n: nat, env: Environment)
    requires n < |urls| && Run(userId, urls[..n], env).failure.None?
    requires env.gateway(n, urls[n]).NotOk? || env.gateway(n, urls[n]).Malformed?
             || (env.gateway(n, urls[n]).Details?
                 && env.insert(|Run(userId, urls[..n], env).results|,
                               DetailsToInsert(userId, urls[n], env.gateway(n, urls[n]).details)).InsertErr?)
    ensures Run(userId, urls, env) == Run(userId, urls[..n + 1], env)
    ensures Run(userId, urls, env).failure.Some?
    ensures env.gateway(n, urls[n]).NotOk? ==> Run(userId, urls, env).failure == Some(GatewayFailedMessage)
    ensures AskedUrls(Run(userId, urls, env).effects) == urls[..n + 1]
  {
    PrefixOfPrefix(urls, n);
    var before := Run(userId, urls[..n], env);
    assert Run(userId, urls[..n + 1], env) == Step(before, userId, n, urls[n], env);
    FailureIsFinal(userId, urls, n + 1, env);
    RunAsksInOrder(userId, urls[..n], env);
    StepShape(before, userId, n, urls[n], env);
    assert urls[..n + 1] == urls[..n] + [urls[n]];
  }

  /** When no reply has a tool call, the request succeeds with no items after one call per URL. */
  lemma {:induction false} AllSkippedRun(userId: string, urls: seq<string>, env: Environment)
    requires forall k :: 0 <= k < |urls| ==> env.gateway(k, urls[k]) == NoToolCall
    ensures Run(userId, urls, env) == LoopState(None, [], seq(|urls|, k requires 0 <= k < |urls| => AskedGateway(urls[k])))
    decreases |urls|
  {
    if urls != [] {
      var init := urls[..|urls| - 1];
      AllSkippedRun(userId, init, env);
    }
  }

  // ---------------------------------------------------------------- the handler

  /** The whole request: pre-flight, body, key, header, identity, then the loop. */
  function Handle(req: Request, env: Environment): (Response, seq<Effect>) {
    if req.httpMethod == "OPTIONS" then (PreflightResponse, [])
    else
      match req.body
      case Unparsable(m) => (ErrorResponse(m), [ReadBody])
      case Json(imageUrls) =>
        if !Truthy(env.apiKey) then (ErrorResponse(MissingKeyMessage), [ReadBody])
        else if !Truthy(req.authorization) then (ErrorResponse(MissingHeaderMessage), [ReadBody])
        else
          var token := BearerToken(req.authorization.value);
          var lookup := env.getUser(token);
          var pre := [ReadBody, AskedIdentity(token)];
          if lookup.failed || lookup.user.None? then (ErrorResponse(UnauthorizedMessage), pre)
          else
            match imageUrls
            case NotIterable(m) => (ErrorResponse(m), pre)
            case Urls(urls) =>
              var st := Run(lookup.user.value.id, urls, env);
              (if st.failure.Some? then ErrorResponse(st.failure.value) else SuccessResponse(st.results),
               pre + st.effects)
  }

  /** The `serve` callback. */
  method Serve(req: Request, env: Environment) returns (resp: Response, effects: seq<Effect>)
    ensures (resp, effects) == Handle(req, env)
  {
    if req.httpMethod == "OPTIONS" {
      return PreflightResponse, [];
    }
    effects := [ReadBody];
    if req.body.Unparsable? {
      return ErrorResponse(req.body.message), effects;
    }
    if !Truthy(env.apiKey) {
      return ErrorResponse(MissingKeyMessage), effects;
    }
    if !Truthy(req.authorization) {
      return ErrorResponse(MissingHeaderMessage), effects;
    }
    var token := BearerToken(req.authorization.value);
    effects := [ReadBody, AskedIdentity(token)];
    var lookup := env.getUser(token);
    if lookup.failed || lookup.user.None? {
      return ErrorResponse(UnauthorizedMessage), effects;
    }
    var user := lookup.user.value;
    if req.body.imageUrls.NotIterable? {
      return ErrorResponse(req.body.imageUrls.message), effects;
    }
    var urls := req.body.imageUrls.urls;
    var pre := effects;
    var results: seq<ItemRow> := [];
    var log: seq<Effect> := [];
    var i := 0;
    while i < |urls|
      invariant 0 <= i <= |urls|
      invariant Run(user.id, urls[..i], env) == LoopState(None, results, log)
    {
      var url := urls[i];
      PrefixOfPrefix(urls, i);
      var reply := env.gateway(i, url);
      log := log + [AskedGateway(url)];
      if reply.NotOk? {
        FailureIsFinal(user.id, urls, i + 1, env);
        return ErrorResponse(GatewayFailedMessage), pre + log;
      }
      if reply.Malformed? {
        FailureIsFinal(user.id, urls, i + 1, env);
        return ErrorResponse(reply.message), pre + log;
      }
      if reply.Details? {
        var row := DetailsToInsert(user.id, url, reply.details);
        log := log + [Inserted(row)];
        var outcome := env.insert(|results|, row);
        if outcome.InsertErr? {
          assert Run(user.id, urls[..i + 1], env) == LoopState(Some(outcome.message), results, log);
          FailureIsFinal(user.id, urls, i + 1, env);
          return ErrorResponse(outcome.message), pre + log;
        }
        results := results + [outcome.row];
      }
      i := i + 1;
    }
    assert urls[..i] == urls;
    return SuccessResponse(results), pre + log;
  }

  // ---------------------------------------------------------------- properties of the handler

  /** A pre-flight request gets an empty 200 with CORS headers and touches nothing. */
  lemma PreflightTouchesNothing(req: Request, env: Environment)
    requires req.httpMethod == "OPTIONS"
    ensures Handle(req, env).0 == Response(200, true, NoBody)
    ensures Handle(req, env).1 == []
  {
  }

  /**
   * A missing key, a missing header or a failed identity lookup ends the
   * request with a 500 before the gateway or the database is used.
   */
  lemma AuthGatesFailFast(req: Request, env: Environment)
    requires req.httpMethod != "OPTIONS" && req.body.Json?
    requires !Truthy(env.apiKey) || !Truthy(req.authorization)
             || (var lookup := env.getUser(BearerToken(req.authorization.value));
                 lookup.failed || lookup.user.None?)
    ensures Handle(req, env).0.status == 500
    ensures NoExternalWork(Handle(req, env).1)
    ensures !Truthy(env.apiKey) ==> Handle(req, env).0.body == ErrorMessage(MissingKeyMessage)
    ensures Truthy(env.apiKey) && !Truthy(req.authorization) ==>
              Handle(req, env).0.body == ErrorMessage(MissingHeaderMessage)
    ensures Truthy(env.apiKey) && Truthy(req.authorization) ==>
              Handle(req, env).0.body == ErrorMessage(UnauthorizedMessage)
              && Handle(req, env).1 == [ReadBody, AskedIdentity(BearerToken(req.authorization.value))]
  {
  }

  /**
   * Every response carries the CORS headers. It is an empty 200 for a
   * pre-flight request; otherwise it is a 200 listing rows, or a 500 with an
   * error message, and nothing else.
   */
  lemma ResponseShape(req: Request, env: Environment)
    ensures Handle(req, env).0.cors
    ensures req.httpMethod == "OPTIONS" <==> Handle(req, env).0.body.NoBody?
    ensures Handle(req, env).0.status == 200 <==> !Handle(req, env).0.body.ErrorMessage?
    ensures Handle(req, env).0.status == 500 <==> Handle(req, env).0.body.ErrorMessage?
  {
  }

  /** The caller identified by the request's token, if the gates let it through. */
  function Caller(req: Request, env: Environment): Option<AuthUser> {
    if req.httpMethod == "OPTIONS" || !req.body.Json? || !Truthy(env.apiKey) || !Truthy(req.authorization)
    then None
    else
      var lookup := env.getUser(BearerToken(req.authorization.value));
      if lookup.failed then None else lookup.user
  }

  /** Every row the handler inserts belongs to the authenticated caller, whatever the gateway said. */
  lemma InsertsBelongToCaller(req: Request, env: Environment)
    ensures var effects := Handle(req, env).1;
      forall i :: 0 <= i < |effects| && effects[i].Inserted? ==>
        Caller(req, env).Some? && effects[i].row.userId == Caller(req, env).value.id
        && 0 < i && effects[i - 1].AskedGateway?
        && effects[i].row.imageUrl == Given(Some(effects[i - 1].url))
  {
    var effects := Handle(req, env).1;
    if Caller(req, env).Some? && req.body.imageUrls.Urls? {
      var uid := Caller(req, env).value.id;
      var urls := req.body.imageUrls.urls;
      var token := BearerToken(req.authorization.value);
      RunInsertsTagged(uid, urls, env);
      var loop := Run(uid, urls, env).effects;
      assert effects == [ReadBody, AskedIdentity(token)] + loop;
      forall i | 0 <= i < |effects| && effects[i].Inserted?
        ensures 0 < i && effects[i - 1].AskedGateway? && effects[i].row.userId == uid
        ensures effects[i].row.imageUrl == Given(Some(effects[i - 1].url))
      {
        assert effects[i] == loop[i - 2];
        assert i - 2 > 0 ==> effects[i - 1] == loop[i - 3];
      }
    }
  }

  /**
   * A failure inside the loop makes the whole request a 500 carrying only
   * the failure's message; the work already done stays in the log.
   */
  lemma LoopFailureGives500(req: Request, env: Environment)
    requires Caller(req, env).Some? && req.body.imageUrls.Urls?
    requires Run(Caller(req, env).value.id, req.body.imageUrls.urls, env).failure.Some?
    ensures var st := Run(Caller(req, env).value.id, req.body.imageUrls.urls, env);
      && Handle(req, env).0 == Response(500, true, ErrorMessage(st.failure.value))
      && Handle(req, env).1 == [ReadBody, AskedIdentity(BearerToken(req.authorization.value))] + st.effects
  {
  }

  /**
   * A successful response lists the stored rows in input order: one gateway
   * call per URL, at most one row per URL, each row the one the database
   * returned for the corresponding insert.
   */
  lemma SuccessListsInsertedRows(req: Request, env: Environment)
    requires Handle(req, env).0.status == 200 && Handle(req, env).0.body.Items?
    ensures req.httpMethod != "OPTIONS" && Caller(req, env).Some? && req.body.imageUrls.Urls?
    ensures Run(Caller(req, env).value.id, req.body.imageUrls.urls, env).failure.None?
    ensures var urls := req.body.imageUrls.urls;
      var items := Handle(req, env).0.body.items;
      var effects := Handle(req, env).1;
      && AskedUrls(effects) == urls
      && |items| <= |urls|
      && |InsertsMade(effects)| == |items|
      && forall j :: 0 <= j < |items| ==> env.insert(j, InsertsMade(effects)[j]) == InsertOk(items[j])
  {
    var uid := Caller(req, env).value.id;
    var urls := req.body.imageUrls.urls;
    var token := BearerToken(req.authorization.value);
    var st := Run(uid, urls, env);
    RunAsksInOrder(uid, urls, env);
    RunInsertsAnswered(uid, urls, env);
    var pre := [ReadBody, AskedIdentity(token)];
    ProjectAppend(pre, st.effects, GatewayUrl);
    ProjectAppend(pre, st.effects, InsertedRow);
    assert pre == [ReadBody] + [AskedIdentity(token)];
    ProjectAppend([ReadBody], [AskedIdentity(token)], GatewayUrl);
    ProjectAppend([ReadBody], [AskedIdentity(token)], InsertedRow);
  }
}
