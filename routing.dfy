/**
 * The request filter at the top of the middleware: which requests it takes over
 * and which handler it hands each of them to.
 */
module Routing {
  import opened Values

  const PluginName: string := "ADmad/HybridAuth"
  const ControllerName: string := "Auth"

  /** The two actions the middleware answers itself. */
  datatype Action = LoginAction | CallbackAction

  /** Where `process` sends a request. */
  datatype Dispatch = PassThrough | Handle(action: Action)

  /** The routing parameter value naming an action. */
  function ActionName(a: Action): string
  {
    match a
    case LoginAction => "login"
    case CallbackAction => "callback"
  }

  /** The handler methods the middleware declares, by action. */
  function HandlerName(a: Action): string
  {
    match a
    case LoginAction => "_handleLoginAction"
    case CallbackAction => "_handleCallbackAction"
  }

  /** PHP's ucfirst: an ASCII lower-case first letter becomes upper case. */
  function Ucfirst(s: string): (r: string)
    ensures |r| == |s| && (s != "" ==> r[1..] == s[1..])
    ensures s != "" && 'a' <= s[0] <= 'z' ==> r[0] as int == s[0] as int - 32
    ensures s != "" && !('a' <= s[0] <= 'z') ==> r[0] == s[0]
  {
    if s == "" then s
    else if 'a' <= s[0] <= 'z' then [(s[0] as int - 32) as char] + s[1..]
    else s
  }

  /** The method name `process` builds from the action: `'_handle' . ucfirst($action) . 'Action'`. */
  function HandlerMethodFor(action: string): string
  {
    "_handle" + Ucfirst(action) + "Action"
  }

  /**
   * The filter and dispatch of `process`: a request is taken over only when it is
   * routed to this plugin's Auth controller with action login or callback
   * (strict comparisons, so a missing parameter never matches); it then goes to
   * the handler of exactly that action.
   */
  function Route(params: Fields): (d: Dispatch)
    ensures d != PassThrough <==>
      && Get(params, "plugin") == Str(PluginName)
      && Get(params, "controller") == Str(ControllerName)
      && (Get(params, "action") == Str("login") || Get(params, "action") == Str("callback"))
    ensures d.Handle? ==> Get(params, "action") == Str(ActionName(d.action))
  {
    var action := Get(params, "action");
    if Get(params, "plugin") != Str(PluginName)
       || Get(params, "controller") != Str(ControllerName)
       || action !in [Str("login"), Str("callback")]
    then PassThrough
    else if action == Str("login") then Handle(LoginAction)
    else Handle(CallbackAction)
  }

  /**
   * The dynamically built method name always names the declared handler of the
   * routed action, so the dispatch by name never reaches any other method.
   */
  lemma RouteReachesDeclaredHandler(params: Fields)
    requires Route(params).Handle?
    ensures HandlerMethodFor(Get(params, "action").s) == HandlerName(Route(params).action)
  {
    var a := Route(params).action;
    var name := ActionName(a);
    assert Get(params, "action").s == name;
    assert name[0] == 'l' || name[0] == 'c';
    assert Ucfirst(name) == (if a == LoginAction then "Login" else "Callback");
  }

  /** Only the plugin, controller and action parameters matter to the filter. */
  lemma RouteReadsOnlyTarget(params: Fields, other: Fields)
    requires forall k :: k in ["plugin", "controller", "action"] ==> Get(params, k) == Get(other, k)
    ensures Route(params) == Route(other)
  {
    assert Get(params, "plugin") == Get(other, "plugin");
    assert Get(params, "controller") == Get(other, "controller");
    assert Get(params, "action") == Get(other, "action");
  }
}
