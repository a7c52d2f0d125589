/**
 * The two generation endpoints of the server, `/api/plan/decorate` and
 * `/api/visualize`: their validation order, the reference images they
 * attach to a prediction request, and the calls they make to the external
 * prediction service, which is a parameter here.
 */
module Handlers {
  import opened Wrappers
  import opened JsText
  import opened Catalog
  import opened Prompts
  import opened Paths

  /** What the process reads at start-up: BASE_URL, COMET_API_KEY (may be unset or empty) and the catalog. */
  datatype Config = Config(baseUrl: string, apiKey: Option<string>, catalog: Catalog)

  /** The `input` object posted to the prediction service; `image2..4` are `input_image_2..4`. */
  datatype PredictionInput = PredictionInput(
    prompt: string,
    inputImage: Option<string>,
    outputFormat: string,
    aspectRatio: string,
    image2: Option<string>,
    image3: Option<string>,
    image4: Option<string>)

  /** The part of the service's reply the server reads: the task id and `urls.get`. */
  datatype Prediction = Prediction(id: string, getUrl: Option<string>)

  /** A reply of the prediction service: a created task, or an error payload/message. */
  datatype ApiReply = Accepted(prediction: Prediction) | Rejected(error: string)

  /** The prediction service, answering the n-th call of a request. */
  type PredictionApi = (nat, PredictionInput) -> ApiReply

  datatype TaskEntry = TaskEntry(room: Option<string>, id: string, getUrl: Option<string>)

  /** The HTTP outcome: 400, 500, the service's reply passed through, or `{ tasks }`. */
  datatype Response =
    | BadRequest(error: string)
    | ServerError(error: string)
    | Created(prediction: Prediction)
    | TaskList(tasks: seq<TaskEntry>)

  datatype DecorateRequest = DecorateRequest(planUrl: Option<string>, textures: Textures, aspectRatio: Option<string>)

  datatype VisualizeRequest = VisualizeRequest(planUrl: Option<string>, rooms: seq<Room>, textures: Textures, aspectRatio: Option<string>)

  const MissingKey := "Missing COMET_API_KEY"
  const PlanRequired := "planUrl required"

  // ---------------------------------------------------------------- reference images

  /** `ids.filter(Boolean)`: the truthy ids, in order. */
  function KeepTruthy(ids: seq<Option<string>>): (r: seq<string>)
    ensures |r| <= |ids|
    ensures forall k :: 0 <= k < |r| ==> r[k] != ""
  {
    if ids == [] then []
    else (if Truthy(ids[0]) then [ids[0].value] else []) + KeepTruthy(ids[1..])
  }

  /** The reference URLs of the ids the catalog resolves, in the ids' order; misses are dropped. */
  function RefUrls(ids: seq<string>, cfg: Config): (refs: seq<string>)
    ensures |refs| <= |ids|
    ensures forall k :: 0 <= k < |refs| ==> refs[k] != ""
  {
    if ids == [] then [] else IdRef(cfg, ids[0]) + RefUrls(ids[1..], cfg)
  }

  /** What one id contributes to the references: the public URL of its material, when the catalog has it. */
  function IdRef(cfg: Config, id: string): (r: seq<string>)
    ensures |r| <= 1 && forall k :: 0 <= k < |r| ==> r[k] != ""
  {
    match Lookup(cfg.catalog, Some(id))
    case Some(m) => [UrlFromLocalPath(cfg.baseUrl, m.albedoUrl)]
    case None => []
  }

  lemma {:induction false} RefUrlsAppend(a: seq<string>, b: seq<string>, cfg: Config)
    ensures RefUrls(a + b, cfg) == RefUrls(a, cfg) + RefUrls(b, cfg)
  {
    if a == [] {
      assert a + b == b;
    } else {
      var ab, tail := a + b, a[1..];
      RefUrlsAppend(tail, b, cfg);
      assert ab[0] == a[0] && ab[1..] == tail + b;
      assert RefUrls(ab, cfg) == IdRef(cfg, a[0]) + (RefUrls(tail, cfg) + RefUrls(b, cfg));
      assert RefUrls(a, cfg) == IdRef(cfg, a[0]) + RefUrls(tail, cfg);
      ConcatAssociates3(IdRef(cfg, a[0]), RefUrls(tail, cfg), RefUrls(b, cfg));
    }
  }

  /** When every id resolves, each one contributes its own reference, in order. */
  lemma {:induction false} RefUrlsAllResolved(ids: seq<string>, cfg: Config)
    requires forall k :: 0 <= k < |ids| ==> Lookup(cfg.catalog, Some(ids[k])).Some?
    ensures |RefUrls(ids, cfg)| == |ids|
    ensures forall k :: 0 <= k < |ids| ==>
              RefUrls(ids, cfg)[k] == UrlFromLocalPath(cfg.baseUrl, Lookup(cfg.catalog, Some(ids[k])).value.albedoUrl)
  {
    if ids != [] {
      RefUrlsAllResolved(ids[1..], cfg);
      assert forall k :: 1 <= k < |ids| ==> ids[k] == ids[1..][k - 1];
    }
  }

  /** When no id resolves (in particular, with no catalog), there is no reference. */
  lemma {:induction false} RefUrlsNoneResolved(ids: seq<string>, cfg: Config)
    requires forall k :: 0 <= k < |ids| ==> Lookup(cfg.catalog, Some(ids[k])).None?
    ensures RefUrls(ids, cfg) == []
  {
    if ids != [] {
      RefUrlsNoneResolved(ids[1..], cfg);
      assert forall k :: 1 <= k < |ids| ==> ids[k] == ids[1..][k - 1];
    }
  }

  lemma RefUrlsSnoc(prefix: seq<string>, id: string, cfg: Config)
    ensures RefUrls(prefix + [id], cfg) == RefUrls(prefix, cfg) + IdRef(cfg, id)
  {
    RefUrlsAppend(prefix, [id], cfg);
    assert RefUrls([id], cfg) == IdRef(cfg, id) + RefUrls([], cfg);
  }

  lemma RefUrlsStep(ids: seq<string>, i: nat, cfg: Config)
    requires i < |ids|
    ensures RefUrls(ids[..i + 1], cfg) == RefUrls(ids[..i], cfg) + IdRef(cfg, ids[i])
  {
    RefUrlsSnoc(ids[..i], ids[i], cfg);
    assert ids[..i + 1] == ids[..i] + [ids[i]];
  }

  /** The ref-building loop of both handlers: a lookup per id, a push per hit. */
  method CollectRefs(ids: seq<string>, cfg: Config) returns (refs: seq<string>)
    ensures refs == RefUrls(ids, cfg)
  {
    refs := [];
    for i := 0 to |ids|
      invariant refs == RefUrls(ids[..i], cfg)
    {
      RefUrlsStep(ids, i, cfg);
      var item := Lookup(cfg.catalog, Some(ids[i]));
      if item.Some? {
        var url := UrlFromLocalPath(cfg.baseUrl, item.value.albedoUrl);
        assert IdRef(cfg, ids[i]) == [url];
        refs := refs + [url];
      } else {
        assert IdRef(cfg, ids[i]) == [];
      }
    }
    assert ids[..|ids|] == ids;
  }

  /** `if (refs[k]) input['input_image_<k+2>'] = refs[k]`: set exactly when the k-th reference is truthy. */
  function Slot(refs: seq<string>, k: nat): (r: Option<string>)
    ensures r.Some? <==> k < |refs| && refs[k] != ""
    ensures r.Some? ==> r.value == refs[k]
  {
    if k < |refs| && refs[k] != "" then Some(refs[k]) else None
  }

  /**
   * The prediction input: the prompt, the plan as `input_image`, PNG output,
   * the aspect ratio, and the first three references in slots 2, 3 and 4.
   */
  function WithRefs(prompt: string, planUrl: Option<string>, aspect: string, refs: seq<string>): (r: PredictionInput)
    ensures r.prompt == prompt && r.inputImage == planUrl && r.outputFormat == "png" && r.aspectRatio == aspect
    ensures (forall k :: 0 <= k < |refs| ==> refs[k] != "") ==>
              r.image2 == (if |refs| > 0 then Some(refs[0]) else None)
              && r.image3 == (if |refs| > 1 then Some(refs[1]) else None)
              && r.image4 == (if |refs| > 2 then Some(refs[2]) else None)
  {
    PredictionInput(prompt, planUrl, "png", aspect, Slot(refs, 0), Slot(refs, 1), Slot(refs, 2))
  }

  /** Builds the input as the handlers do, one slot assignment at a time. */
  method BuildInput(prompt: string, planUrl: Option<string>, aspect: string, refs: seq<string>)
    returns (input: PredictionInput)
    requires forall k :: 0 <= k < |refs| ==> refs[k] != ""
    ensures input == WithRefs(prompt, planUrl, aspect, refs)
    ensures input.image2 == (if |refs| > 0 then Some(refs[0]) else None)
    ensures input.image3 == (if |refs| > 1 then Some(refs[1]) else None)
    ensures input.image4 == (if |refs| > 2 then Some(refs[2]) else None)
  {
    input := PredictionInput(prompt, planUrl, "png", aspect, None, None, None);
    if 0 < |refs| && refs[0] != "" { input := input.(image2 := Some(refs[0])); }
    if 1 < |refs| && refs[1] != "" { input := input.(image3 := Some(refs[1])); }
    if 2 < |refs| && refs[2] != "" { input := input.(image4 := Some(refs[2])); }
  }

  /** A reply as the handler answers it: the service's body passed through, or a 500. */
  function Forward(reply: ApiReply): (r: Response)
    ensures r.Created? <==> reply.Accepted?
    ensures reply.Accepted? ==> r == Created(reply.prediction)
    ensures reply.Rejected? ==> r == ServerError(reply.error)
  {
    match reply
    case Accepted(p) => Created(p)
    case Rejected(e) => ServerError(e)
  }

  // ---------------------------------------------------------------- decorate

  /** Candidate reference ids of the overlay: wall, floor, doors, fabric. */
  function DecorateIds(t: Textures): seq<Option<string>>
  {
    [t.wall, t.floor, t.doors, t.fabric]
  }

  /**
   * The one input the overlay endpoint sends: the overlay prompt, the plan,
   * PNG output and the aspect ratio, "1:1" when the request has none; its
   * reference slots are stated by DecorateRefSlots.
   */
  function DecorateInput(cfg: Config, req: DecorateRequest): (r: PredictionInput)
    ensures r.prompt == MakeOverlayPrompt(req.textures, cfg.catalog) && r.inputImage == req.planUrl && r.outputFormat == "png"
    ensures r.aspectRatio == if req.aspectRatio.Some? then req.aspectRatio.value else "1:1"
  {
    WithRefs(MakeOverlayPrompt(req.textures, cfg.catalog), req.planUrl, Default(req.aspectRatio, "1:1"),
             RefUrls(KeepTruthy(DecorateIds(req.textures)), cfg))
  }

  /**
   * `/api/plan/decorate`. The credential is checked before the plan URL,
   * and neither failure reaches the service; otherwise exactly one call is
   * made and its reply is passed through. `calls` lists the service calls.
   */
  method Decorate(cfg: Config, req: DecorateRequest, api: PredictionApi) returns (resp: Response, calls: seq<PredictionInput>)
    ensures !Truthy(cfg.apiKey) ==> resp == BadRequest(MissingKey) && calls == []
    ensures Truthy(cfg.apiKey) && !Truthy(req.planUrl) ==> resp == BadRequest(PlanRequired) && calls == []
    ensures Truthy(cfg.apiKey) && Truthy(req.planUrl) ==>
              calls == [DecorateInput(cfg, req)] && resp == Forward(api(0, calls[0]))
  {
    if !Truthy(cfg.apiKey) {
      return BadRequest(MissingKey), [];
    }
    if !Truthy(req.planUrl) {
      return BadRequest(PlanRequired), [];
    }
    var refs := CollectRefs(KeepTruthy(DecorateIds(req.textures)), cfg);
    var input := BuildInput(MakeOverlayPrompt(req.textures, cfg.catalog), req.planUrl, Default(req.aspectRatio, "1:1"), refs);
    calls := [input];
    resp := Forward(api(0, input));
  }

  /** The reference URL of an id the catalog resolves. */
  function RefOf(cfg: Config, id: Option<string>): string
    requires Lookup(cfg.catalog, id).Some?
  {
    UrlFromLocalPath(cfg.baseUrl, Lookup(cfg.catalog, id).value.albedoUrl)
  }

  /** What one candidate id contributes: its reference when it is truthy and resolves, else nothing. */
  function RefPart(cfg: Config, id: Option<string>): seq<string>
  {
    if Truthy(id) && Lookup(cfg.catalog, id).Some? then [RefOf(cfg, id)] else []
  }

  lemma RefsOfCons(cfg: Config, id: Option<string>, rest: seq<Option<string>>)
    ensures RefUrls(KeepTruthy([id] + rest), cfg) == RefPart(cfg, id) + RefUrls(KeepTruthy(rest), cfg)
  {
    assert ([id] + rest)[1..] == rest;
    var head := if Truthy(id) then [id.value] else [];
    assert KeepTruthy([id] + rest) == head + KeepTruthy(rest);
    RefUrlsAppend(head, KeepTruthy(rest), cfg);
  }

  /** The references of three candidate ids: each id's part, in candidate order. */
  lemma RefsOfThree(cfg: Config, a: Option<string>, b: Option<string>, c: Option<string>)
    ensures RefUrls(KeepTruthy([a, b, c]), cfg) == RefPart(cfg, a) + RefPart(cfg, b) + RefPart(cfg, c)
  {
    var pa, pb, pc := RefPart(cfg, a), RefPart(cfg, b), RefPart(cfg, c);
    var none: seq<Option<string>> := [];
    assert RefUrls(KeepTruthy(none), cfg) == [];
    RefsOfCons(cfg, c, none);
    var l1 := [c] + none;
    assert RefUrls(KeepTruthy(l1), cfg) == pc;
    RefsOfCons(cfg, b, l1);
    var l2 := [b] + l1;
    assert RefUrls(KeepTruthy(l2), cfg) == pb + pc;
    RefsOfCons(cfg, a, l2);
    var l3 := [a] + l2;
    assert RefUrls(KeepTruthy(l3), cfg) == pa + (pb + pc);
    assert l3 == [a, b, c];
    ConcatAssociates3(pa, pb, pc);
  }

  /** The references of four candidate ids: each id's part, in candidate order. */
  lemma RefsOfFour(cfg: Config, a: Option<string>, b: Option<string>, c: Option<string>, d: Option<string>)
    ensures RefUrls(KeepTruthy([a, b, c, d]), cfg) == RefPart(cfg, a) + RefPart(cfg, b) + RefPart(cfg, c) + RefPart(cfg, d)
  {
    var tail := [b, c, d];
    RefsOfThree(cfg, b, c, d);
    RefsOfCons(cfg, a, tail);
    assert [a] + tail == [a, b, c, d];
    ConcatAssociates(RefPart(cfg, a), RefPart(cfg, b), RefPart(cfg, c), RefPart(cfg, d));
  }

  lemma ConcatAssociates3(p: seq<string>, q: seq<string>, r: seq<string>)
    ensures p + (q + r) == p + q + r
  {
  }

  lemma ConcatAssociates(p: seq<string>, q: seq<string>, r: seq<string>, s: seq<string>)
    ensures p + (q + r + s) == p + q + r + s
  {
  }

  /**
   * The overlay's references are the catalog hits among wall, floor, doors
   * and fabric, in that order; the first three of them fill slots 2, 3 and
   * 4 and no other slot is set.
   */
  lemma DecorateRefSlots(cfg: Config, req: DecorateRequest)
    ensures var t := req.textures;
            var refs := RefPart(cfg, t.wall) + RefPart(cfg, t.floor) + RefPart(cfg, t.doors) + RefPart(cfg, t.fabric);
            var input := DecorateInput(cfg, req);
            input.image2 == (if |refs| > 0 then Some(refs[0]) else None)
            && input.image3 == (if |refs| > 1 then Some(refs[1]) else None)
            && input.image4 == (if |refs| > 2 then Some(refs[2]) else None)
  {
    var t := req.textures;
    var refs := RefUrls(KeepTruthy(DecorateIds(t)), cfg);
    RefsOfFour(cfg, t.wall, t.floor, t.doors, t.fabric);
    assert DecorateInput(cfg, req) == WithRefs(MakeOverlayPrompt(t, cfg.catalog), req.planUrl, Default(req.aspectRatio, "1:1"), refs);
  }

  // ---------------------------------------------------------------- visualize

  /** Candidate reference ids of a room: its wall, its floor, then the global fabric. */
  function RoomIds(room: Room, t: Textures): seq<Option<string>>
  {
    [RoomWallId(room, t), RoomFloorId(room, t), t.fabric]
  }

  /**
   * The input the visualize endpoint sends for one room: the room prompt,
   * the plan, PNG output and the aspect ratio, "16:9" when the request has
   * none; its reference slots are stated by RoomRefSlots.
   */
  function RoomInput(cfg: Config, req: VisualizeRequest, room: Room): (r: PredictionInput)
    ensures r.prompt == MakeRoomPrompt(room, req.textures, cfg.catalog) && r.inputImage == req.planUrl && r.outputFormat == "png"
    ensures r.aspectRatio == if req.aspectRatio.Some? then req.aspectRatio.value else "16:9"
  {
    WithRefs(MakeRoomPrompt(room, req.textures, cfg.catalog), req.planUrl, Default(req.aspectRatio, "16:9"),
             RefUrls(KeepTruthy(RoomIds(room, req.textures)), cfg))
  }

  /** The per-room body of the visualize loop, up to the service call. */
  method BuildRoomInput(cfg: Config, req: VisualizeRequest, room: Room) returns (input: PredictionInput)
    ensures input == RoomInput(cfg, req, room)
  {
    var refs := CollectRefs(KeepTruthy(RoomIds(room, req.textures)), cfg);
    input := BuildInput(MakeRoomPrompt(room, req.textures, cfg.catalog), req.planUrl, Default(req.aspectRatio, "16:9"), refs);
  }

  /**
   * A room's references are the catalog hits among its wall id (override
   * first), its floor id (override first) and the global fabric, in that
   * order, placed in slots 2, 3 and 4.
   */
  lemma RoomRefSlots(cfg: Config, req: VisualizeRequest, room: Room)
    ensures var t := req.textures;
            var refs := RefPart(cfg, RoomWallId(room, t)) + RefPart(cfg, RoomFloorId(room, t)) + RefPart(cfg, t.fabric);
            var input := RoomInput(cfg, req, room);
            input.image2 == (if |refs| > 0 then Some(refs[0]) else None)
            && input.image3 == (if |refs| > 1 then Some(refs[1]) else None)
            && input.image4 == (if |refs| > 2 then Some(refs[2]) else None)
  {
    var t := req.textures;
    RefsOfThree(cfg, RoomWallId(room, t), RoomFloorId(room, t), t.fabric);
  }

  /** The inputs of the first `n` rooms, in room order: the calls a visualize request makes. */
  function RoomInputs(cfg: Config, req: VisualizeRequest, n: nat): (inputs: seq<PredictionInput>)
    requires n <= |req.rooms|
    ensures |inputs| == n
  {
    seq(n, RoomInputAt(cfg, req))
  }

  /** The input of the room at index `j`. */
  function RoomInputAt(cfg: Config, req: VisualizeRequest): int --> PredictionInput
  {
    j requires 0 <= j < |req.rooms| => RoomInput(cfg, req, req.rooms[j])
  }

  lemma Tabulate<T>(f: int --> T, n: nat)
    requires forall j :: 0 <= j <= n ==> f.requires(j)
    ensures seq(n + 1, f) == seq(n, f) + [f(n)]
  {
    var longer, shorter := seq(n + 1, f), seq(n, f);
    assert forall i :: 0 <= i < n ==> longer[i] == shorter[i];
  }

  /** One more room's input extends the calls by one. */
  lemma RoomInputsSnoc(cfg: Config, req: VisualizeRequest, n: nat, input: PredictionInput)
    requires n < |req.rooms| && input == RoomInput(cfg, req, req.rooms[n])
    ensures RoomInputs(cfg, req, n + 1) == RoomInputs(cfg, req, n) + [input]
  {
    Tabulate(RoomInputAt(cfg, req), n);
  }

  /** The task entry a room's accepted prediction becomes. */
  function EntryOf(room: Room, reply: ApiReply): TaskEntry
    requires reply.Accepted?
  {
    TaskEntry(room.name, reply.prediction.id, reply.prediction.getUrl)
  }

  /** Every one of the first `n` calls was accepted. */
  ghost predicate AcceptedUpTo(api: PredictionApi, calls: seq<PredictionInput>, n: nat)
    requires n <= |calls|
  {
    forall j :: 0 <= j < n ==> api(j, calls[j]).Accepted?
  }

  /** Every call but the last was accepted, and the last was rejected with `error`. */
  ghost predicate FailedOnLast(api: PredictionApi, calls: seq<PredictionInput>, error: string)
  {
    |calls| >= 1 && api(|calls| - 1, calls[|calls| - 1]) == Rejected(error) && AcceptedUpTo(api, calls, |calls| - 1)
  }

  lemma FailedOnLastExtend(api: PredictionApi, calls: seq<PredictionInput>, input: PredictionInput)
    requires AcceptedUpTo(api, calls, |calls|) && api(|calls|, input).Rejected?
    ensures FailedOnLast(api, calls + [input], api(|calls|, input).error)
  {
    assert forall j :: 0 <= j < |calls| ==> (calls + [input])[j] == calls[j];
  }

  /** `out` lists, room by room, the entries of the accepted calls. */
  ghost predicate EntriesMatch(req: VisualizeRequest, api: PredictionApi, calls: seq<PredictionInput>, out: seq<TaskEntry>)
  {
    |out| == |calls| <= |req.rooms| && AcceptedUpTo(api, calls, |calls|)
    && forall j :: 0 <= j < |out| ==> out[j] == EntryOf(req.rooms[j], api(j, calls[j]))
  }

  lemma EntriesMatchExtend(req: VisualizeRequest, api: PredictionApi, calls: seq<PredictionInput>, out: seq<TaskEntry>, input: PredictionInput)
    requires EntriesMatch(req, api, calls, out) && |calls| < |req.rooms|
    requires api(|calls|, input).Accepted?
    ensures EntriesMatch(req, api, calls + [input], out + [EntryOf(req.rooms[|calls|], api(|calls|, input))])
  {
    var calls', out' := calls + [input], out + [EntryOf(req.rooms[|calls|], api(|calls|, input))];
    assert forall j :: 0 <= j < |calls'| ==> calls'[j] == if j < |calls| then calls[j] else input;
    assert forall j :: 0 <= j < |out'| ==> out'[j] == EntryOf(req.rooms[j], api(j, calls'[j]));
  }

  /**
   * `/api/visualize`. Only the credential is validated (the plan URL is
   * not). Rooms are processed one at a time, one call each; the first
   * rejected call ends the request with a 500 and no partial list, and
   * otherwise the response lists one task per room, in room order.
   */
  method Visualize(cfg: Config, req: VisualizeRequest, api: PredictionApi) returns (resp: Response, calls: seq<PredictionInput>)
    ensures !Truthy(cfg.apiKey) ==> resp == BadRequest(MissingKey) && calls == []
    ensures Truthy(cfg.apiKey) ==> (resp.TaskList? || resp.ServerError?) && |calls| <= |req.rooms| && calls == RoomInputs(cfg, req, |calls|)
    ensures resp.TaskList? ==> |calls| == |req.rooms| && EntriesMatch(req, api, calls, resp.tasks)
    ensures resp.ServerError? ==> FailedOnLast(api, calls, resp.error)
    ensures Truthy(cfg.apiKey) && req.rooms == [] ==> resp == TaskList([]) && calls == []
  {
    if !Truthy(cfg.apiKey) {
      return BadRequest(MissingKey), [];
    }
    var out: seq<TaskEntry> := [];
    calls := [];
    for i := 0 to |req.rooms|
      invariant |calls| == i
      invariant calls == RoomInputs(cfg, req, i)
      invariant EntriesMatch(req, api, calls, out)
    {
      var room := req.rooms[i];
      var input := BuildRoomInput(cfg, req, room);
      RoomInputsSnoc(cfg, req, i, input);
      var reply := api(i, input);
      if reply.Rejected? {
        FailedOnLastExtend(api, calls, input);
        return ServerError(reply.error), calls + [input];
      }
      EntriesMatchExtend(req, api, calls, out, input);
      calls := calls + [input];
      out := out + [EntryOf(room, reply)];
    }
    resp := TaskList(out);
  }
}
