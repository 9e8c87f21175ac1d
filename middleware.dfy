/**
 * The middleware object: its request filter, the callback action and the steps
 * it is built from, each changing the entities, the session and the last error
 * code in place, and each proved to compute what the Reconcile and Redirects
 * functions say.
 */
module Middleware {
  import opened Values
  import opened Entities
  import opened ProfileFields
  import opened Redirects
  import opened Routing
  import opened Reconcile

  /** A request: its routing parameters, its query string and its session. */
  datatype Request = Request(params: Fields, query: map<string, string>, session: Session)

  /** What `_getUser` gives back: the user, null (the error code says why), or a RuntimeException. */
  datatype UserLookup = UserFound(user: Entity) | NoUser | Failed(message: string)

  /** The query string value under `key`, if the request has one. */
  function QueryValue(query: map<string, string>, key: string): Option<string>
  {
    if key in query then Some(query[key]) else None
  }

  class HybridAuthMiddleware {
    const config: Config
    const env: Collaborators
    /** The code of the last failure, used in the login redirect. */
    var error: string

    constructor(config: Config, env: Collaborators)
      ensures this.config == config && this.env == env && error == ""
    {
      this.config := config;
      this.env := env;
      error := "";
    }

    /**
     * `process`: requests for other routes go to the next handler untouched; the
     * login action ends in the stub's debug dump; the callback action is
     * answered as `Callback` says.
     */
    method Process(request: Request, next: Request -> Response) returns (response: Response)
      modifies this, request.session
      ensures Route(request.params) != Handle(CallbackAction) ==>
        request.session.data == old(request.session.data) && error == old(error)
      ensures Route(request.params) == PassThrough ==> response == next(request)
      ensures Route(request.params) == Handle(LoginAction) ==> response == DebugHalt
      ensures Route(request.params) == Handle(CallbackAction) ==>
        var r := Callback(config, env, request.params, request.query, old(request.session.data), old(error));
        response == r.response && request.session.data == r.session && error == r.error
    {
      match Route(request.params)
      case PassThrough =>
        response := next(request);
      case Handle(LoginAction) =>
        response := DebugHalt;
      case Handle(CallbackAction) =>
        response := HandleCallback(request);
    }

    /** `_handleCallbackAction`. */
    method HandleCallback(request: Request) returns (response: Response)
      modifies this, request.session
      ensures var r := Callback(config, env, request.params, request.query, old(request.session.data), old(error));
        response == r.response && request.session.data == r.session && error == r.error
    {
      var provider := Get(request.params, "provider");
      if !provider.Str? {
        return Raised(ProviderTypeMessage);
      }
      var profile := GetProfile(provider.s, request);
      if profile == null {
        return Redirect(env.url(config.loginUrl) + "?error=" + error);
      }
      var lookup := GetUser(profile, request.session);
      match lookup {
        case NoUser =>
          response := Redirect(env.url(config.loginUrl) + "?error=" + error);
        case Failed(message) =>
          response := Raised(message);
        case UserFound(user) =>
          user.Unset(config.passwordField);
          var identified :=
            if config.userEntity then Record(true, user.fields) else EntityToArray(Record(true, user.fields));
          var result := env.afterIdentify(identified);
          if result != Null {
            identified := result;
          }
          request.session.Write(config.sessionKey, identified);
          var target := GetRedirectUrl(request);
          response := Redirect(env.url(target));
      }
    }

    /**
     * `_getProfile` past the provider handshake: a rejected login records
     * provider_failure and gives null; otherwise the stored profile for
     * (provider, identifier), or a new one, is patched from the identity.
     */
    method GetProfile(providerName: string, request: Request) returns (profile: Entity?)
      modifies this
      ensures var identity := env.authenticate(providerName, request.query);
        && (identity.None? ==> profile == null && error == ProviderFailure)
        && (identity.Some? ==>
              && profile != null && fresh(profile) && error == old(error)
              && profile.State() == ProfileFor(env, providerName, identity.value))
    {
      var identity := env.authenticate(providerName, request.query);
      if identity.None? {
        error := ProviderFailure;
        return null;
      }
      var stored := env.findProfile(providerName, Property(identity.value, "identifier"));
      var existing: Entity? := null;
      if stored.Some? {
        existing := new Entity.Load(stored.value);
      }
      profile := PatchProfile(providerName, identity.value, existing);
    }

    /**
     * `_patchProfile`: a missing profile is created with its provider set, and
     * the profile is patched with the identity's renamed properties.
     */
    method PatchProfile(providerName: string, identity: Identity, existing: Entity?) returns (profile: Entity)
      modifies existing
      ensures existing == null ==>
        && fresh(profile)
        && profile.State() == PatchEntity(NewEntity(map["provider" := Str(providerName)]), Patch(identity))
      ensures existing != null ==>
        && profile == existing
        && profile.State() == PatchEntity(old(existing.State()), Patch(identity))
    {
      if existing == null {
        profile := new Entity.Create(map["provider" := Str(providerName)]);
      } else {
        profile := existing;
      }
      var data := BuildPatch(identity);
      profile.Patch(data);
    }

    /** `_getUser`. */
    method GetUser(profile: Entity, session: Session) returns (lookup: UserLookup)
      modifies this, profile
      ensures var r := ResolveUser(config, env, old(profile.State()), session.data);
        && (r.FinderFailed? ==> lookup == NoUser && error == FinderFailure && profile.State() == old(profile.State()))
        && (r.Fatal? ==> lookup == Failed(r.message) && error == old(error))
        && (r.Resolved? ==>
              && lookup.UserFound? && fresh(lookup.user) && lookup.user.fields == r.user
              && profile.State() == r.profile && error == old(error))
    {
      var userId := Get(profile.fields, "user_id");
      var user: Entity? := null;
      if Truthy(userId) {
        var found := env.findUser(userId);
        if found.Some? {
          user := new Entity.Load(found.value);
        }
      }
      if user == null {
        if Truthy(userId) {
          error := FinderFailure;
          return NoUser;
        }
        user := GetUserEntity(profile, session);
        if user == null {
          return Failed(GetUserCallbackMessage);
        }
        profile.Set("user_id", Get(user.fields, "id"));
      }
      if IsDirty(profile.State()) {
        var saved := SaveProfile(profile);
        if !saved {
          return Failed(SaveProfileMessage);
        }
      }
      user.Set("social_profile", Record(true, profile.fields));
      user.Unset(config.passwordField);
      lookup := UserFound(user);
    }

    /** `_getUserEntity`: the getUser callback's user, or null where the source throws. */
    method GetUserEntity(profile: Entity, session: Session) returns (user: Entity?)
      ensures env.getUser(profile.fields, session.data).None? ==> user == null
      ensures env.getUser(profile.fields, session.data).Some? ==>
        user != null && fresh(user) && user.fields == env.getUser(profile.fields, session.data).value
    {
      var result := env.getUser(profile.fields, session.data);
      if result.None? {
        return null;
      }
      user := new Entity.Load(result.value);
    }

    /**
     * `_saveProfile`: false where the source throws; a saved profile takes the
     * fields the save writes back and is clean.
     */
    method SaveProfile(profile: Entity) returns (saved: bool)
      modifies profile
      ensures saved == env.saveProfile(old(profile.fields)).Some?
      ensures saved ==> profile.State() == Saved(old(profile.State()), env.saveProfile(old(profile.fields)).value)
      ensures !saved ==> profile.State() == old(profile.State())
    {
      var written := env.saveProfile(profile.fields);
      saved := written.Some?;
      if saved {
        profile.MarkSaved(written.value);
      }
    }

    /** `_setRedirectUrl`. */
    method SetRedirectUrl(request: Request)
      modifies request.session
      ensures request.session.data ==
        StoreRedirect(old(request.session.data), QueryValue(request.query, QueryStringRedirect))
    {
      request.session.Delete(RedirectKey);
      var redirectUrl := QueryValue(request.query, QueryStringRedirect);
      if !AcceptedRedirect(redirectUrl) {
        return;
      }
      request.session.Write(RedirectKey, Str(redirectUrl.value));
    }

    /** `_getRedirectUrl`. */
    method GetRedirectUrl(request: Request) returns (url: Value)
      modifies request.session
      ensures (url, request.session.data) == TakeRedirect(old(request.session.data), config.loginRedirect)
    {
      var redirectUrl := request.session.Read(RedirectKey);
      if Truthy(redirectUrl) {
        request.session.Delete(RedirectKey);
        return redirectUrl;
      }
      return config.loginRedirect;
    }
  }
}
