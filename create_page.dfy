/**
 * The page that turns a prompt into a new meme: it checks the prompt, posts it
 * with the chosen style to the generate endpoint, and shows the image it gets back.
 * The handler is split at its request: `Submit` runs up to the request and
 * `Settle` runs once the response (or the failure) is known.
 */
module CreatePage {
  import opened Wrappers
  import opened Toast

  /** One entry of the style picker. */
  datatype StyleOption = StyleOption(value: string, title: string)

  /** The style picker's choices, in order. */
  const Styles: seq<StyleOption> := [
    StyleOption("modern", "Modern"),
    StyleOption("pixel", "Pixel Art"),
    StyleOption("cartoon", "Cartoon"),
    StyleOption("realistic", "Realistic"),
    StyleOption("anime", "Anime"),
    StyleOption("cyberpunk", "Cyberpunk"),
    StyleOption("vaporwave", "Vaporwave"),
    StyleOption("renaissance", "Renaissance")
  ]

  /** The first three characters of a style key, which already tell the keys apart. */
  function Tag(key: string): seq<char>
  {
    if |key| < 3 then key else key[..3]
  }

  /** There are eight styles, with these keys in this order, and no key repeats. */
  lemma StylesWellFormed()
    ensures |Styles| == 8
    ensures Styles[0].value == "modern" && Styles[1].value == "pixel" && Styles[2].value == "cartoon"
    ensures Styles[3].value == "realistic" && Styles[4].value == "anime" && Styles[5].value == "cyberpunk"
    ensures Styles[6].value == "vaporwave" && Styles[7].value == "renaissance"
    ensures forall i, j :: 0 <= i < j < |Styles| ==> Styles[i].value != Styles[j].value
  {
    var tags := ["mod", "pix", "car", "rea", "ani", "cyb", "vap", "ren"];
    forall i | 0 <= i < |Styles| ensures Tag(Styles[i].value) == tags[i] {
    }
    forall i, j | 0 <= i < j < |Styles| ensures Styles[i].value != Styles[j].value {
      assert tags[i] != tags[j];
    }
  }

  /** The JSON body `{ prompt, style }` sent to the generate endpoint. */
  datatype GenerateRequest = GenerateRequest(prompt: string, style: string)

  /** Reading the response body: either it is not JSON, or it gives `imageUrl` (possibly missing). */
  datatype JsonOutcome = JsonMalformed(message: string) | JsonParsed(imageUrl: Option<string>)

  /** The request: it fails before a response, or a response arrives with its `ok` flag and body. */
  datatype FetchOutcome = FetchRejected(message: string) | FetchResponded(ok: bool, json: JsonOutcome)


  const PromptRequiredMessage := "Please enter a prompt to generate an image."
  const GenerateFailedMessage := "Failed to generate image"

  /** The error description a failed request reports, if it failed. */
  function FailureDescription(outcome: FetchOutcome): (d: Option<string>)
    ensures outcome.FetchResponded? && !outcome.ok ==> d == Some(GenerateFailedMessage)
    ensures d.None? <==> outcome.FetchResponded? && outcome.ok && outcome.json.JsonParsed?
  {
    match outcome
    case FetchRejected(message) => Some(message)
    case FetchResponded(ok, json) =>
      if !ok then Some(GenerateFailedMessage)
      else if json.JsonMalformed? then Some(json.message)
      else None
  }

  class CreatePost {
    var prompt: string
    var style: string
    var generating: bool
    var generatedImage: Option<string>
    var notice: Notice

    constructor ()
      ensures prompt == "" && style == "" && !generating
      ensures generatedImage == None && notice == NoNotice
    {
      prompt := "";
      style := "";
      generating := false;
      generatedImage := None;
      notice := NoNotice;
    }

    /** The generate button is disabled while the prompt is empty or a request is out. */
    predicate ButtonDisabled()
      reads this
    {
      prompt == "" || generating
    }

    /** Typing in the prompt box. */
    method SetPrompt(p: string)
      modifies this
      ensures prompt == p
      ensures style == old(style) && generating == old(generating)
      ensures generatedImage == old(generatedImage) && notice == old(notice)
    {
      prompt := p;
    }

    /** Choosing a style. */
    method SetStyle(s: string)
      modifies this
      ensures style == s
      ensures prompt == old(prompt) && generating == old(generating)
      ensures generatedImage == old(generatedImage) && notice == old(notice)
    {
      style := s;
    }

    /** `handleGenerate` up to its request: an empty prompt is refused, otherwise the flag goes up and the body goes out verbatim. */
    method Submit() returns (request: Option<GenerateRequest>)
      modifies this
      ensures prompt == old(prompt) && style == old(style) && generatedImage == old(generatedImage)
      ensures old(prompt) == "" ==>
        request == None && notice == ErrorNotice(PromptRequiredMessage) && generating == old(generating)
      ensures old(prompt) != "" ==>
        request == Some(GenerateRequest(prompt, style)) && generating && notice == old(notice)
      ensures request.Some? ==> ButtonDisabled()
    {
      if prompt == "" {
        notice := ErrorNotice(PromptRequiredMessage);
        return None;
      }
      generating := true;
      request := Some(GenerateRequest(prompt, style));
    }

    /** `handleGenerate` after its request: record the image or the error, then lower the flag in every case. */
    method Settle(outcome: FetchOutcome)
      modifies this
      ensures !generating
      ensures prompt == old(prompt) && style == old(style)
      ensures ButtonDisabled() <==> prompt == ""
      ensures FailureDescription(outcome).Some? ==>
        generatedImage == old(generatedImage) && notice == ErrorNotice(FailureDescription(outcome).value)
      ensures FailureDescription(outcome).None? ==>
        generatedImage == outcome.json.imageUrl && notice == SuccessNotice
    {
      if outcome.FetchRejected? {
        notice := ErrorNotice(outcome.message);
      } else if !outcome.ok {
        notice := ErrorNotice(GenerateFailedMessage);
      } else if outcome.json.JsonMalformed? {
        notice := ErrorNotice(outcome.json.message);
      } else {
        generatedImage := outcome.json.imageUrl;
        notice := SuccessNotice;
      }
      generating := false;
    }

    /** The whole handler, with the request's outcome given. */
    method HandleGenerate(outcome: FetchOutcome) returns (request: Option<GenerateRequest>)
      modifies this
      ensures prompt == old(prompt) && style == old(style)
      ensures request.Some? <==> old(prompt) != ""
      ensures request.Some? ==> request.value == GenerateRequest(old(prompt), old(style))
      ensures old(prompt) == "" ==>
        generating == old(generating) && generatedImage == old(generatedImage) &&
        notice == ErrorNotice(PromptRequiredMessage)
      ensures old(prompt) != "" ==> !generating
      ensures old(prompt) != "" && FailureDescription(outcome).Some? ==>
        generatedImage == old(generatedImage) && notice == ErrorNotice(FailureDescription(outcome).value)
      ensures old(prompt) != "" && FailureDescription(outcome).None? ==>
        generatedImage == outcome.json.imageUrl && notice == SuccessNotice
    {
      request := Submit();
      if request.Some? {
        Settle(outcome);
      }
    }
  }
}
