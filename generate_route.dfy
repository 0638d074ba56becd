/**
 * The one server endpoint, `POST /api/generate`: it checks the session and the
 * prompt, asks the image provider for a picture of the prompt (with the style
 * appended), stores the result as a new meme row and returns its URL.
 * The session lookup, the provider call and the insert are given as outcomes.
 */
module GenerateRoute {
  import opened Wrappers

  /** The session lookup: it may throw, find nobody, or find a signed-in user. */
  datatype SessionLookup = SessionThrew | NoSession | SignedIn(userId: string)

  /** The parsed JSON body `{ prompt, style }`, or a body that fails to parse. */
  datatype RequestBody = MalformedBody | Body(prompt: Option<string>, style: Option<string>)

  /** What the provider call did: it threw, or it returned the first image's URL, if any. */
  datatype ProviderOutcome = ProviderThrew | ProviderReturned(url: Option<string>)

  /** A `memes` row as the database stores and returns it. */
  datatype Meme = Meme(id: string, userId: string, imageUrl: string, caption: Option<string>, createdAt: string)

  /** The row the endpoint asks the database to insert. */
  datatype MemeInsert = MemeInsert(userId: string, imageUrl: string, caption: string, createdAt: string)

  /** What the insert-and-select call did. */
  datatype InsertOutcome = InsertFailed | Inserted(meme: Meme)

  /** The HTTP response: a plain-text status, or the JSON `{ imageUrl, meme }` with status 200. */
  datatype Response = Text(status: int, message: string) | Json(imageUrl: string, meme: Meme)
  {
    function Status(): int
    {
      if Text? then status else 200
    }
  }

  /** The calls the endpoint issued: the prompt sent to the provider and the row inserted. */
  datatype Effects = Effects(providerPrompt: Option<string>, inserted: Option<MemeInsert>)

  const StyleSeparator := ". Style: "

  /** The provider prompt: the user's prompt, followed by `. Style: <style>` when a style is given. */
  function ComposePrompt(prompt: string, style: Option<string>): string
  {
    if Truthy(style) then prompt + StyleSeparator + style.value else prompt
  }

  /** The style suffix is appended exactly when the style is non-empty, and the prompt always leads. */
  lemma ComposePromptSpec(prompt: string, style: Option<string>)
    ensures ComposePrompt(prompt, style)[..|prompt|] == prompt
    ensures ComposePrompt(prompt, style) == prompt <==> !Truthy(style)
    ensures Truthy(style) ==> ComposePrompt(prompt, style)[|prompt|..] == ". Style: " + style.value
  {
    var r := ComposePrompt(prompt, style);
    if Truthy(style) {
      assert r[..|prompt|] == prompt;
      assert |r| > |prompt|;
      assert r[|prompt|..] == StyleSeparator + style.value;
    }
  }

  /** The two end-to-end examples: no style leaves the prompt alone, style "pixel" is appended. */
  lemma ComposePromptExamples()
    ensures ComposePrompt("a cat", None) == "a cat"
    ensures ComposePrompt("a cat", Some("")) == "a cat"
    ensures ComposePrompt("a cat", Some("pixel")) == "a cat. Style: pixel"
  {
  }

  /** The endpoint, step by step: every failure after the first two checks becomes status 500. */
  method Post(lookup: SessionLookup, body: RequestBody, provider: ProviderOutcome,
              insert: InsertOutcome, now: string)
    returns (response: Response, effects: Effects)
    // no session: 401, nothing called
    ensures lookup == NoSession ==> response == Text(401, "Unauthorized") && effects == Effects(None, None)
    // the session lookup itself failing is a downstream failure
    ensures lookup == SessionThrew ==> response == Text(500, "Internal Error") && effects == Effects(None, None)
    // a session and a missing or empty prompt: 400, no provider call
    ensures lookup.SignedIn? && body.Body? && !Truthy(body.prompt) ==>
      response == Text(400, "Prompt is required") && effects == Effects(None, None)
    // an unreadable body with a session: 500
    ensures lookup.SignedIn? && body == MalformedBody ==>
      response == Text(500, "Internal Error") && effects == Effects(None, None)
    // a session and a prompt: the provider gets the composed prompt
    ensures lookup.SignedIn? && body.Body? && Truthy(body.prompt) ==>
      effects.providerPrompt == Some(ComposePrompt(body.prompt.value, body.style))
    // no URL from the provider: 500 and no row
    ensures (provider == ProviderThrew || (provider.ProviderReturned? && !Truthy(provider.url))) ==>
      response.Status() != 200 && effects.inserted == None
    // the inserted row: session user, generated URL, the prompt without the style suffix
    ensures effects.inserted.Some? <==>
      lookup.SignedIn? && body.Body? && Truthy(body.prompt) && provider.ProviderReturned? && Truthy(provider.url)
    ensures effects.inserted.Some? ==>
      effects.inserted.value == MemeInsert(lookup.userId, provider.url.value, body.prompt.value, now)
    // success exactly when every step succeeded, returning the stored URL and row
    ensures response.Json? <==> effects.inserted.Some? && insert.Inserted?
    ensures response.Json? ==> response.imageUrl == effects.inserted.value.imageUrl && response.meme == insert.meme
    // every failure after the session and prompt checks is a 500
    ensures lookup.SignedIn? && body.Body? && Truthy(body.prompt) && !response.Json? ==>
      response == Text(500, "Internal Error")
    ensures response.Status() in {200, 400, 401, 500}
  {
    effects := Effects(None, None);
    if lookup == SessionThrew {
      return Text(500, "Internal Error"), effects;
    }
    if lookup == NoSession {
      return Text(401, "Unauthorized"), effects;
    }
    if body == MalformedBody {
      return Text(500, "Internal Error"), effects;
    }
    if !Truthy(body.prompt) {
      return Text(400, "Prompt is required"), effects;
    }
    var prompt := body.prompt.value;
    effects := effects.(providerPrompt := Some(ComposePrompt(prompt, body.style)));
    if provider == ProviderThrew {
      return Text(500, "Internal Error"), effects;
    }
    var imageUrl := provider.url;
    if !Truthy(imageUrl) {
      return Text(500, "Internal Error"), effects;
    }
    var row := MemeInsert(lookup.userId, imageUrl.value, prompt, now);
    effects := effects.(inserted := Some(row));
    if insert == InsertFailed {
      return Text(500, "Internal Error"), effects;
    }
    response := Json(imageUrl.value, insert.meme);
  }
}
