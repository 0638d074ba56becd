/**
 * Properties that span the create page, the route guard and the generate
 * endpoint: what the page sends is what the endpoint checks and forwards.
 */
module EndToEnd {
  import opened Wrappers
  import CreatePage
  import GenerateRoute
  import Middleware

  /** The endpoint's view of the JSON body the create page sends (`JSON.stringify({ prompt, style })`). */
  function BodyOf(request: CreatePage.GenerateRequest): GenerateRoute.RequestBody
  {
    GenerateRoute.Body(Some(request.prompt), Some(request.style))
  }

  /**
   * Both sides test emptiness the same way and neither trims: a request the
   * page lets out passes the endpoint's prompt check, whitespace included, and
   * the provider sees the prompt verbatim when no style was chosen.
   */
  lemma PageAndEndpointAgree(request: CreatePage.GenerateRequest)
    ensures Truthy(BodyOf(request).prompt) <==> request.prompt != ""
    ensures request.style == "" ==> GenerateRoute.ComposePrompt(request.prompt, BodyOf(request).style) == request.prompt
    ensures request.style != "" ==>
      GenerateRoute.ComposePrompt(request.prompt, BodyOf(request).style) == request.prompt + ". Style: " + request.style
  {
  }

  /** A prompt of blanks passes both the page's check and the endpoint's. */
  lemma BlankPromptAccepted()
    ensures Truthy(BodyOf(CreatePage.GenerateRequest(" ", "")).prompt)
    ensures GenerateRoute.ComposePrompt(" ", Some("")) == " "
  {
  }

  /** The create page needs a session: without one the guard sends the visitor to sign in, and sign-in then lets them through. */
  lemma CreatePageGuarded()
    ensures Middleware.HandleRequest("/create", Middleware.LookupDone(false)) == Middleware.RedirectToSignIn
    ensures Middleware.HandleRequest("/create", Middleware.LookupDone(true)) == Middleware.PassThrough
    ensures Middleware.HandleRequest("/signin", Middleware.LookupDone(false)) == Middleware.PassThrough
  {
    assert "/create"[1..] == "create";
    Middleware.DifferAt("create", "api", 0);
    Middleware.DifferAt("create", "_next/static", 0);
    Middleware.DifferAt("create", "_next/image", 0);
    Middleware.DifferAt("create", "favicon", 0);
    Middleware.ProtectedRouteIff("/create");
    Middleware.AuthRouteIff("/create");
    Middleware.RedirectTargetsPass(false);
  }
}
