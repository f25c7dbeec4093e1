/**
 * The virtual try-on call (services/geminiService.ts, `generateTryOnImage`):
 * check the API key, prepare both images, send one three-part request to the
 * image model, and pick the generated image out of the response.
 *
 * The model client is a parameter `generate` from request to outcome; the
 * remote image reader is a parameter `fetch`. The observable calls to both are
 * recorded as a trace of effects so that their order can be stated.
 */
module TryOnService {
  import opened Wrappers
  import opened StoreTypes
  import opened Text
  import opened ImagePayload

  /** The model the request names. */
  const ModelName: string := "gemini-2.5-flash-image"

  /** What fills the instruction slot of the prompt when the shopper wrote nothing. */
  const DefaultInstructions: string := "Ensure a natural fit."

  /**
   * The fixed prompt text before and after the instruction slot, abbreviated:
   * their exact wording is not part of this model.
   */
  const PromptLead: string := "Virtual try-on of Input 1 wearing Input 2. Adjustments: "
  const PromptClosing: string := " Output only the generated image."

  /** Inline results are always labelled PNG, whatever type the model reported. */
  const ResultPrefix: string := "data:image/png;base64,"

  const MissingKeyMessage: string :=
    "Falta la clave API. Por favor verifica tu configuración de entorno."
  const NoImageMessage: string :=
    "No se pudo generar la imagen. " +
    "Por favor intenta con una foto " +
    "o instrucción diferente."
  const BadRequestMessage: string :=
    "Error en la solicitud (400). " +
    "Verifica que las imágenes sean " +
    "válidas y no estén corruptas."

  /**
   * The `TypeError` the engine throws when the first candidate has no
   * `content` (or its content no `parts`) and the loop reads them anyway.
   */
  const PartsMissingMessage: string :=
    "Cannot read properties of " +
    "undefined (reading 'parts')"

  /** A part of the request: the prompt text or an inline image. */
  datatype RequestPart = TextPart(text: string) | ImagePart(image: InlineImage)

  datatype GenerateRequest = GenerateRequest(model: string, parts: seq<RequestPart>)

  /** The inline data a response part may carry; an empty `data` counts as none. */
  datatype Blob = Blob(mimeType: string, data: string)

  /** A response part; text parts are those with no inline data. */
  datatype ResponsePart = ResponsePart(inlineData: Option<Blob>)

  /** A candidate; `None` when its `content` or its `content.parts` is missing. */
  datatype Candidate = Candidate(parts: Option<seq<ResponsePart>>)

  /** A response; a missing candidate list is the empty one. */
  datatype Response = Response(candidates: seq<Candidate>)

  /** What the model call gives back: a response, or a thrown value. */
  datatype CallOutcome = Responded(response: Response) | Threw(thrown: Thrown)

  /** The calls the service makes on the outside world, in order. */
  datatype Effect = FetchImage(url: string) | CallModel(request: GenerateRequest)

  /** The outcome of a try-on run together with the calls it made. */
  datatype Run = Run(result: Result<string, Thrown>, effects: seq<Effect>)

  /** `!process.env.API_KEY`: the key is missing or empty. */
  predicate KeyConfigured(apiKey: Option<string>)
  {
    apiKey.Some? && apiKey.value != ""
  }

  /** `request.instructions || "Ensure a natural fit."` */
  function InstructionSlot(instructions: string): (slot: string)
    ensures slot != ""
    ensures instructions != "" ==> slot == instructions
  {
    if instructions == "" then DefaultInstructions else instructions
  }

  function Prompt(instructions: string): string
  {
    PromptLead + InstructionSlot(instructions) + PromptClosing
  }

  /** The slot can be read back from the prompt: the fixed text around it is all that is added. */
  lemma PromptCarriesSlot(instructions: string)
    ensures var p := Prompt(instructions);
      |p| == |PromptLead| + |InstructionSlot(instructions)| + |PromptClosing| &&
      p[|PromptLead|..|p| - |PromptClosing|] == InstructionSlot(instructions)
  {
    var p := Prompt(instructions);
    assert p[|PromptLead|..|p| - |PromptClosing|] == InstructionSlot(instructions);
  }

  /** The request body: prompt text, then the user's image, then the product's image. */
  function BuildRequest(instructions: string, userImage: InlineImage, productImage: InlineImage): (req: GenerateRequest)
    ensures req.model == ModelName && |req.parts| == 3
    ensures req.parts[0] == TextPart(Prompt(instructions)) && req.parts[1] == ImagePart(userImage) && req.parts[2] == ImagePart(productImage)
  {
    GenerateRequest(ModelName, [TextPart(Prompt(instructions)), ImagePart(userImage), ImagePart(productImage)])
  }

  /** `part.inlineData && part.inlineData.data` */
  predicate HasImage(part: ResponsePart)
  {
    part.inlineData.Some? && part.inlineData.value.data != ""
  }

  /** The index of the first part carrying image data, or `|parts|` if none does. */
  function FirstImageIndex(parts: seq<ResponsePart>): (k: nat)
    ensures k <= |parts|
    ensures forall j :: 0 <= j < k ==> !HasImage(parts[j])
    ensures k < |parts| ==> HasImage(parts[k])
  {
    if parts == [] then 0
    else if HasImage(parts[0]) then 0
    else 1 + FirstImageIndex(parts[1..])
  }

  /** There is a first candidate, and reading its parts throws because they are missing. */
  predicate PartsMissing(response: Response)
  {
    |response.candidates| > 0 && response.candidates[0].parts.None?
  }

  /**
   * The image data of the first candidate's first part that carries some;
   * later parts and other candidates are ignored.
   */
  function ResponseImage(response: Response): (d: Option<string>)
    ensures d.Some? <==>
      |response.candidates| > 0 && response.candidates[0].parts.Some? &&
      exists i :: 0 <= i < |response.candidates[0].parts.value| && HasImage(response.candidates[0].parts.value[i])
    ensures d.Some? ==>
      var parts := response.candidates[0].parts.value;
      exists i :: 0 <= i < |parts| && HasImage(parts[i]) && parts[i].inlineData.value.data == d.value &&
        forall j :: 0 <= j < i ==> !HasImage(parts[j])
  {
    if |response.candidates| == 0 || response.candidates[0].parts.None? then None
    else
      var parts := response.candidates[0].parts.value;
      var k := FirstImageIndex(parts);
      if k < |parts| then Some(parts[k].inlineData.value.data) else None
  }

  /**
   * The `catch` clause: an `Error` whose message contains "400" is replaced by
   * the bad-request message; everything else is rethrown as it is.
   */
  function RemapError(e: Thrown): (r: Thrown)
    ensures r == e || r == Error(BadRequestMessage)
    ensures r.Error? <==> e.Error?
    ensures r != e <==> e.Error? && e.message != BadRequestMessage && Includes(e.message, "400")
  {
    if e.Error? && Includes(e.message, "400") then Error(BadRequestMessage) else e
  }

  /** The fetches `prepareImage` makes for a source: one for a remote address, none otherwise. */
  function FetchesOf(source: string): seq<Effect>
  {
    if RemotePrefix <= source then [FetchImage(source)] else []
  }

  /**
   * What the call returns once the model has answered: the found image as a
   * PNG data URL, or the thrown value after remapping.
   */
  function Settle(outcome: CallOutcome): (r: Result<string, Thrown>)
    ensures r.Ok? <==> outcome.Responded? && ResponseImage(outcome.response).Some?
    ensures r.Ok? ==> r.value == ResultPrefix + ResponseImage(outcome.response).value
    ensures outcome.Threw? ==> r == Err(RemapError(outcome.thrown))
  {
    match outcome
    case Threw(e) => Err(RemapError(e))
    case Responded(response) =>
      if PartsMissing(response) then Err(RemapError(Error(PartsMissingMessage)))
      else match ResponseImage(response)
      case Some(d) => Ok(ResultPrefix + d)
      case None => Err(RemapError(Error(NoImageMessage)))
  }

  /** The whole try-on call, as a function of its inputs. */
  function TryOnRun(
    apiKey: Option<string>,
    request: TryOnRequest,
    fetch: string -> FetchOutcome,
    generate: GenerateRequest -> CallOutcome): (run: Run)
    ensures !KeyConfigured(apiKey) ==> run.effects == []
    ensures |run.effects| <= 3
    ensures forall i :: 0 <= i < |run.effects| - 1 ==> run.effects[i].FetchImage?
    ensures run.result.Ok? ==> |run.effects| > 0 && run.effects[|run.effects| - 1].CallModel?
  {
    if !KeyConfigured(apiKey) then Run(Err(Error(MissingKeyMessage)), [])
    else
      var user := PrepareImage(request.userImage, fetch);
      var afterUser := FetchesOf(request.userImage);
      if user.Err? then Run(Err(RemapError(user.error)), afterUser)
      else
        var product := PrepareImage(request.productImage, fetch);
        var afterProduct := afterUser + FetchesOf(request.productImage);
        if product.Err? then Run(Err(RemapError(product.error)), afterProduct)
        else
          var req := BuildRequest(request.instructions, user.value, product.value);
          Run(Settle(generate(req)), afterProduct + [CallModel(req)])
  }

  /**
   * `generateTryOnImage`. Returns the generated image as a PNG data URL or
   * the value it throws, and the calls it made on the way.
   */
  method GenerateTryOnImage(
    apiKey: Option<string>,
    request: TryOnRequest,
    fetch: string -> FetchOutcome,
    generate: GenerateRequest -> CallOutcome)
    returns (result: Result<string, Thrown>, effects: seq<Effect>)
    ensures Run(result, effects) == TryOnRun(apiKey, request, fetch, generate)
  {
    if !KeyConfigured(apiKey) {
      return Err(Error(MissingKeyMessage)), [];
    }
    var userImg := PrepareImage(request.userImage, fetch);
    effects := FetchesOf(request.userImage);
    if userImg.Err? {
      return Err(RemapError(userImg.error)), effects;
    }
    var productImg := PrepareImage(request.productImage, fetch);
    effects := effects + FetchesOf(request.productImage);
    if productImg.Err? {
      return Err(RemapError(productImg.error)), effects;
    }
    var req := BuildRequest(request.instructions, userImg.value, productImg.value);
    var outcome := generate(req);
    effects := effects + [CallModel(req)];
    assert TryOnRun(apiKey, request, fetch, generate) == Run(Settle(outcome), effects);
    if outcome.Threw? {
      return Err(RemapError(outcome.thrown)), effects;
    }
    if PartsMissing(outcome.response) {
      return Err(RemapError(Error(PartsMissingMessage))), effects;
    }
    var image := FindImage(outcome.response);
    if image.Some? {
      return Ok(ResultPrefix + image.value), effects;
    }
    return Err(RemapError(Error(NoImageMessage))), effects;
  }

  /**
   * The scan over the first candidate's parts: the data of the first part
   * that carries some, if any.
   */
  method FindImage(response: Response) returns (d: Option<string>)
    ensures d == ResponseImage(response)
  {
    var candidates := response.candidates;
    if |candidates| > 0 && candidates[0].parts.Some? {
      var parts := candidates[0].parts.value;
      var i := 0;
      while i < |parts|
        invariant 0 <= i <= |parts|
        invariant forall j :: 0 <= j < i ==> !HasImage(parts[j])
      {
        var part := parts[i];
        if part.inlineData.Some? && part.inlineData.value.data != "" {
          return Some(part.inlineData.value.data);
        }
        i := i + 1;
      }
    }
    return None;
  }

  /** Without a usable key the call fails at once: no image is prepared and the model is not called. */
  lemma MissingKeyFirst(
    apiKey: Option<string>,
    request: TryOnRequest,
    fetch: string -> FetchOutcome,
    generate: GenerateRequest -> CallOutcome)
    requires !KeyConfigured(apiKey)
    ensures TryOnRun(apiKey, request, fetch, generate) == Run(Err(Error(MissingKeyMessage)), [])
  {
  }

  /**
   * When both images can be prepared, the user's image is fetched (if remote)
   * before the product's, and then the model is called exactly once with the
   * prompt text, the user's image and the product's image, in that order.
   */
  lemma RequestSent(
    apiKey: Option<string>,
    request: TryOnRequest,
    fetch: string -> FetchOutcome,
    generate: GenerateRequest -> CallOutcome)
    requires KeyConfigured(apiKey)
    requires PrepareImage(request.userImage, fetch).Ok? && PrepareImage(request.productImage, fetch).Ok?
    ensures
      var run := TryOnRun(apiKey, request, fetch, generate);
      var user := PrepareImage(request.userImage, fetch).value;
      var product := PrepareImage(request.productImage, fetch).value;
      var req := GenerateRequest(ModelName,
        [TextPart(Prompt(request.instructions)), ImagePart(user), ImagePart(product)]);
      run.effects == FetchesOf(request.userImage) + FetchesOf(request.productImage) + [CallModel(req)] &&
      run.result == Settle(generate(req))
  {
  }

  /**
   * When an image cannot be prepared the call fails with the remote-image
   * message and the model is never called; if it is the user's image, the
   * product's image is not even fetched.
   */
  lemma PreparationFailure(
    apiKey: Option<string>,
    request: TryOnRequest,
    fetch: string -> FetchOutcome,
    generate: GenerateRequest -> CallOutcome)
    requires KeyConfigured(apiKey)
    requires PrepareImage(request.userImage, fetch).Err? || PrepareImage(request.productImage, fetch).Err?
    ensures TryOnRun(apiKey, request, fetch, generate).result == Err(Error(RemoteImageMessage))
    ensures forall e <- TryOnRun(apiKey, request, fetch, generate).effects :: e.FetchImage?
    ensures PrepareImage(request.userImage, fetch).Err? ==>
      TryOnRun(apiKey, request, fetch, generate).effects == [FetchImage(request.userImage)]
    ensures PrepareImage(request.userImage, fetch).Ok? ==>
      TryOnRun(apiKey, request, fetch, generate).effects ==
        FetchesOf(request.userImage) + [FetchImage(request.productImage)]
  {
    RemoteImageMessageKept();
  }

  /** The instruction slot holds the shopper's text verbatim, or the default phrase when it is empty. */
  lemma PromptSlot(instructions: string)
    ensures instructions != "" ==> Prompt(instructions) == PromptLead + instructions + PromptClosing
    ensures instructions == "" ==> Prompt(instructions) == PromptLead + DefaultInstructions + PromptClosing
  {
  }

  /** Only the first candidate is inspected. */
  lemma FirstCandidateOnly(first: Candidate, others: seq<Candidate>)
    ensures ResponseImage(Response([first] + others)) == ResponseImage(Response([first]))
  {
  }

  /** No candidate, or no part with image data, gives the no-image error, which the remapping leaves alone. */
  lemma SettleNoImage(response: Response)
    requires !PartsMissing(response) && ResponseImage(response).None?
    ensures Settle(Responded(response)) == Err(Error(NoImageMessage))
  {
    NoImageMessageKept();
  }

  /**
   * A first candidate without content or parts makes the scan throw a
   * `TypeError`, which is an `Error` without "400" and so is rethrown as it is.
   */
  lemma PartsMissingThrows(response: Response)
    requires PartsMissing(response)
    ensures Settle(Responded(response)) == Err(Error(PartsMissingMessage))
  {
    assert '4' !in "Cannot read properties of ";
    assert '4' !in "undefined (reading 'parts')";
    NoFirstCharNoMatch(PartsMissingMessage, "400");
  }

  /** The remote-image message does not mention "400", so the remapping rethrows it unchanged. */
  lemma RemoteImageMessageKept()
    ensures RemapError(Error(RemoteImageMessage)) == Error(RemoteImageMessage)
  {
    assert '4' !in "No se pudo procesar la imagen ";
    assert '4' !in "del producto (URL remota). ";
    assert '4' !in "Intenta descargar la imagen ";
    assert '4' !in "y subirla manualmente.";
    NoFirstCharNoMatch(RemoteImageMessage, "400");
  }

  /** The no-image message does not mention "400", so the remapping rethrows it unchanged. */
  lemma NoImageMessageKept()
    ensures RemapError(Error(NoImageMessage)) == Error(NoImageMessage)
  {
    assert '4' !in "No se pudo generar la imagen. ";
    assert '4' !in "Por favor intenta con una foto ";
    assert '4' !in "o instrucción diferente.";
    NoFirstCharNoMatch(NoImageMessage, "400");
  }

  /** Remapping twice is remapping once: the bad-request message itself mentions "400". */
  lemma RemapErrorIdempotent(e: Thrown)
    ensures RemapError(RemapError(e)) == RemapError(e)
  {
    assert BadRequestMessage[23..26] == "400";
    assert OccursAt(BadRequestMessage, "400", 23);
  }

  /** A response whose second candidate has an image but whose first has none yields the no-image error. */
  lemma SecondCandidateIgnored(text: ResponsePart, image: Blob)
    requires text.inlineData.None? && image.data != ""
    ensures Settle(Responded(Response([Candidate(Some([text])), Candidate(Some([ResponsePart(Some(image))]))])))
         == Err(Error(NoImageMessage))
  {
    var response := Response([Candidate(Some([text])), Candidate(Some([ResponsePart(Some(image))]))]);
    assert !HasImage(response.candidates[0].parts.value[0]);
    SettleNoImage(response);
  }

  /** A first candidate whose image part carries "Zm9v" yields exactly the PNG data URL of "Zm9v". */
  lemma SettleExample(mimeType: string)
    ensures Settle(Responded(Response([Candidate(Some([ResponsePart(None), ResponsePart(Some(Blob(mimeType, "Zm9v")))]))])))
         == Ok("data:image/png;base64,Zm9v")
  {
    var parts := [ResponsePart(None), ResponsePart(Some(Blob(mimeType, "Zm9v")))];
    assert !HasImage(parts[0]) && HasImage(parts[1]);
    assert FirstImageIndex(parts) == 1;
    assert ResponseImage(Response([Candidate(Some(parts))])) == Some("Zm9v");
    assert ResultPrefix + "Zm9v" == "data:image/png;base64,Zm9v";
  }
}
