/**
 * The identity-reconciliation workflow as functions of its inputs: the social
 * profile built from an identity, the user resolved for that profile, and the
 * whole callback (response, session and last error code). The middleware's
 * methods are proved to compute exactly these.
 */
module Reconcile {
  import opened Values
  import opened Entities
  import opened ProfileFields
  import opened Redirects

  const ProviderFailure: string := "provider_failure"
  const FinderFailure: string := "finder_failure"
  const GetUserCallbackMessage: string := "\"getUserCallback\" method must return a user entity."
  const SaveProfileMessage: string := "Unable to save social profile."
  /** The strict-types TypeError raised when the route carries no provider name. */
  const ProviderTypeMessage: string := "TypeError: provider name must be of type string"

  /** The configuration options the workflow reads. */
  datatype Config = Config(
    loginUrl: Value,
    loginRedirect: Value,
    userEntity: bool,
    passwordField: string,
    sessionKey: string)

  /**
   * The collaborators the workflow calls, as functions of what they are given:
   * the provider handshake (identity properties, or None when the provider
   * rejects the login), the profile lookup by (provider, identifier), the user
   * lookup by primary key through the configured finder, the application's
   * getUser callback (None when it returns something other than an entity),
   * the profile save (None when it fails, otherwise the fields it writes back
   * into the entity, such as a generated id), the afterIdentify listener (Null when it gives no result)
   * and Router::url with full base.
   */
  datatype Collaborators = Collaborators(
    authenticate: (string, map<string, string>) -> Option<Identity>,
    findProfile: (string, Value) -> Option<Fields>,
    findUser: Value -> Option<Fields>,
    getUser: (Fields, Fields) -> Option<Fields>,
    saveProfile: Fields -> Option<Fields>,
    afterIdentify: Value -> Value,
    url: Value -> string)

  /** What the middleware answers: a redirect, an exception, or the debug dump that ends the login stub. */
  datatype Response = Redirect(location: string) | Raised(message: string) | DebugHalt

  /**
   * `_patchProfile` on values: the stored record, or a new one seeded with the
   * provider name, patched with the renamed identity properties.
   */
  function PatchedProfile(provider: string, identity: Identity, stored: Option<Fields>): (p: EntityState)
    ensures forall k :: k in Patch(identity) ==> Get(p.fields, k) == Patch(identity)[k]
    ensures forall k :: k !in Patch(identity) ==>
      Get(p.fields, k) == (if stored.Some? then Get(stored.value, k) else if k == "provider" then Str(provider) else Null)
    ensures stored.None? ==> IsDirty(p)
  {
    var base := if stored.None? then NewEntity(map["provider" := Str(provider)]) else LoadedEntity(stored.value);
    var p := PatchEntity(base, Patch(identity));
    assert stored.None? ==> "provider" in p.dirty;
    p
  }

  /** The profile `_getProfile` builds for an authenticated identity. */
  function ProfileFor(env: Collaborators, provider: string, identity: Identity): EntityState
  {
    PatchedProfile(provider, identity, env.findProfile(provider, Property(identity, "identifier")))
  }

  /** The outcome of `_getUser`. */
  datatype Resolution = Resolved(user: Fields, profile: EntityState) | FinderFailed | Fatal(message: string)

  /** The user as `_getUser` returns it: the profile attached, the password field removed. */
  function AttachProfile(cfg: Config, user: Fields, profile: EntityState): Fields
  {
    user["social_profile" := Record(true, profile.fields)] - {cfg.passwordField}
  }

  /** The tail of `_getUser`: save a dirty profile (a failed save is fatal), then attach it. */
  function SaveAndAttach(cfg: Config, env: Collaborators, user: Fields, profile: EntityState): Resolution
  {
    if !IsDirty(profile) then Resolved(AttachProfile(cfg, user, profile), profile)
    else match env.saveProfile(profile.fields)
      case None => Fatal(SaveProfileMessage)
      case Some(written) =>
        var saved := Saved(profile, written);
        Resolved(AttachProfile(cfg, user, saved), saved)
  }

  /**
   * `_getUser`: a profile linked to a user id is resolved through the finder
   * (no user found is the finder failure); an unlinked profile gets the user of
   * the application callback and is linked to that user's id.
   */
  function ResolveUser(cfg: Config, env: Collaborators, profile: EntityState, session: Fields): (r: Resolution)
    ensures var userId := Get(profile.fields, "user_id");
      r.FinderFailed? <==> Truthy(userId) && env.findUser(userId).None?
    ensures var userId := Get(profile.fields, "user_id");
      !Truthy(userId) && env.getUser(profile.fields, session).None? ==> r == Fatal(GetUserCallbackMessage)
    ensures r.Resolved? ==> cfg.passwordField !in r.user && !IsDirty(r.profile)
    ensures r.Resolved? && cfg.passwordField != "social_profile" ==>
      "social_profile" in r.user && r.user["social_profile"] == Record(true, r.profile.fields)
    ensures r.Fatal? ==> r.message in {GetUserCallbackMessage, SaveProfileMessage}
  {
    var userId := Get(profile.fields, "user_id");
    if Truthy(userId) then
      match env.findUser(userId)
      case None => FinderFailed
      case Some(user) => SaveAndAttach(cfg, env, user, profile)
    else
      match env.getUser(profile.fields, session)
      case None => Fatal(GetUserCallbackMessage)
      case Some(user) => SaveAndAttach(cfg, env, user, SetField(profile, "user_id", Get(user, "id")))
  }

  /**
   * A linked profile whose user the finder cannot find fails with
   * finder_failure whatever the callback and the save would do: neither is
   * consulted.
   */
  lemma FinderFailureConsultsNothingElse(cfg: Config, env: Collaborators, other: Collaborators,
                                         profile: EntityState, session: Fields, otherSession: Fields)
    requires Truthy(Get(profile.fields, "user_id"))
    requires env.findUser(Get(profile.fields, "user_id")).None?
    requires other.findUser == env.findUser
    ensures ResolveUser(cfg, env, profile, session) == FinderFailed
    ensures ResolveUser(cfg, other, profile, otherSession) == FinderFailed
  {
  }

  /**
   * An unlinked profile is linked to the callback's user: it is always saved
   * (the link makes it dirty), a failed save is fatal, and on success the
   * profile's user_id is that user's id and the returned user is the
   * callback's user with the profile attached and the password removed.
   */
  lemma UnlinkedProfileIsLinkedToCallbackUser(cfg: Config, env: Collaborators, profile: EntityState,
                                              session: Fields, user: Fields)
    requires !Truthy(Get(profile.fields, "user_id"))
    requires env.getUser(profile.fields, session) == Some(user)
    ensures var linked := profile.fields["user_id" := Get(user, "id")];
      ResolveUser(cfg, env, profile, session) ==
        match env.saveProfile(linked)
        case None => Fatal(SaveProfileMessage)
        case Some(written) =>
          var saved := LoadedEntity(linked + written);
          Resolved(AttachProfile(cfg, user, saved), saved)
  {
    var linked := SetField(profile, "user_id", Get(user, "id"));
    assert IsDirty(linked);
  }

  /**
   * A linked profile whose user the finder finds resolves to that user with the
   * profile attached and the password removed; the profile is saved only when
   * dirty, and a failed save is fatal.
   */
  lemma LinkedProfileResolvesToFoundUser(cfg: Config, env: Collaborators, profile: EntityState,
                                         session: Fields, user: Fields)
    requires Truthy(Get(profile.fields, "user_id"))
    requires env.findUser(Get(profile.fields, "user_id")) == Some(user)
    ensures ResolveUser(cfg, env, profile, session) ==
      if !IsDirty(profile) then Resolved(AttachProfile(cfg, user, profile), profile)
      else match env.saveProfile(profile.fields)
        case None => Fatal(SaveProfileMessage)
        case Some(written) =>
          Resolved(AttachProfile(cfg, user, LoadedEntity(profile.fields + written)), LoadedEntity(profile.fields + written))
  {
  }

  /**
   * A linked profile with nothing dirty is not saved: the resolution does not
   * depend on the save at all, and the profile comes back as it was.
   */
  lemma CleanProfileIsNotSaved(cfg: Config, env: Collaborators, other: Collaborators,
                               profile: EntityState, session: Fields)
    requires !IsDirty(profile)
    requires Truthy(Get(profile.fields, "user_id"))
    requires other == env.(saveProfile := other.saveProfile)
    ensures ResolveUser(cfg, env, profile, session) == ResolveUser(cfg, other, profile, session)
    ensures ResolveUser(cfg, env, profile, session).Resolved? ==>
      ResolveUser(cfg, env, profile, session).profile == profile
  {
  }

  /**
   * A repeat login whose identity still matches the stored, linked record
   * patches that record and leaves it clean, so the user is found and nothing
   * is saved. This rests on the model's reading of `patchEntity` (equal values
   * leave a field clean), which the ORM guarantees for scalar column values
   * only.
   */
  lemma UnchangedRepeatLoginSavesNothing(cfg: Config, env: Collaborators, other: Collaborators,
                                         provider: string, identity: Identity, session: Fields)
    requires env.findProfile(provider, Property(identity, "identifier")).Some?
    requires var stored := env.findProfile(provider, Property(identity, "identifier")).value;
      && Truthy(Get(stored, "user_id"))
      && env.findUser(Get(stored, "user_id")).Some?
      && forall k :: k in Patch(identity) ==> Patch(identity)[k] == Get(stored, k)
    requires other == env.(saveProfile := other.saveProfile)
    ensures var stored := env.findProfile(provider, Property(identity, "identifier")).value;
      && ProfileFor(env, provider, identity) == LoadedEntity(stored)
      && ResolveUser(cfg, env, ProfileFor(env, provider, identity), session).Resolved?
      && ResolveUser(cfg, env, ProfileFor(env, provider, identity), session)
         == ResolveUser(cfg, other, ProfileFor(env, provider, identity), session)
  {
    var stored := env.findProfile(provider, Property(identity, "identifier")).value;
    PatchWithSameValuesIsClean(LoadedEntity(stored), Patch(identity));
    CleanProfileIsNotSaved(cfg, env, other, LoadedEntity(stored), session);
  }

  /** The outcome of the callback action: the response, the session afterwards and the last error code. */
  datatype CallbackResult = CallbackResult(response: Response, session: Fields, error: string)

  /** Where a failed login is sent: the login page with the error code. */
  function FailureLocation(cfg: Config, env: Collaborators, code: string): string
  {
    env.url(cfg.loginUrl) + "?error=" + code
  }

  /** The user as it goes to the listener: without the password field, as an entity or as an array. */
  function UserProjection(cfg: Config, user: Fields): (v: Value)
    ensures v.Record? && cfg.passwordField !in v.fields
    ensures v.fields.Keys == user.Keys - {cfg.passwordField}
    ensures v.isEntity == cfg.userEntity
  {
    var stripped := user - {cfg.passwordField};
    if cfg.userEntity then Record(true, stripped) else EntityToArray(Record(true, stripped))
  }

  /** The listener's result when it gives one, else the user itself. */
  function Identified(env: Collaborators, projection: Value): Value
  {
    var result := env.afterIdentify(projection);
    if result != Null then result else projection
  }

  /**
   * `_handleCallbackAction` after the request filter: authenticate, build the
   * profile, resolve the user, store it in the session and redirect to the
   * remembered target.
   */
  function Callback(cfg: Config, env: Collaborators, params: Fields, query: map<string, string>,
                    session: Fields, error: string): (r: CallbackResult)
    ensures r.response.Redirect? && r.error != error ==> r.session == session
    ensures r.response.Raised? ==> r.session == session && r.error == error
  {
    var provider := Get(params, "provider");
    if !provider.Str? then CallbackResult(Raised(ProviderTypeMessage), session, error)
    else match env.authenticate(provider.s, query)
      case None =>
        CallbackResult(Redirect(FailureLocation(cfg, env, ProviderFailure)), session, ProviderFailure)
      case Some(identity) =>
        match ResolveUser(cfg, env, ProfileFor(env, provider.s, identity), session)
        case FinderFailed =>
          CallbackResult(Redirect(FailureLocation(cfg, env, FinderFailure)), session, FinderFailure)
        case Fatal(message) => CallbackResult(Raised(message), session, error)
        case Resolved(user, _) =>
          var stored := Identified(env, UserProjection(cfg, user));
          var (target, after) := TakeRedirect(session[cfg.sessionKey := stored], cfg.loginRedirect);
          CallbackResult(Redirect(env.url(target)), after, error)
  }

  /**
   * Every failure of the provider or of the finder ends in a redirect to the
   * login page carrying the error code, with nothing written to the session.
   */
  lemma FailedLoginRedirectsWithError(cfg: Config, env: Collaborators, params: Fields,
                                      query: map<string, string>, session: Fields, error: string)
    requires Get(params, "provider").Str?
    ensures var provider := Get(params, "provider").s;
      var r := Callback(cfg, env, params, query, session, error);
      && (env.authenticate(provider, query).None? ==>
            r == CallbackResult(Redirect(env.url(cfg.loginUrl) + "?error=provider_failure"), session, ProviderFailure))
      && (env.authenticate(provider, query).Some? &&
          ResolveUser(cfg, env, ProfileFor(env, provider, env.authenticate(provider, query).value), session).FinderFailed? ==>
            r == CallbackResult(Redirect(env.url(cfg.loginUrl) + "?error=finder_failure"), session, FinderFailure))
  {
    assert FailureLocation(cfg, env, ProviderFailure) == env.url(cfg.loginUrl) + "?error=provider_failure";
    assert FailureLocation(cfg, env, FinderFailure) == env.url(cfg.loginUrl) + "?error=finder_failure";
  }

  /**
   * A resolved user is stored under the session key: the listener's result when
   * it gives one, otherwise the user without its password field; the response
   * then redirects to the remembered target, which is consumed, or to the
   * configured default.
   */
  lemma ResolvedUserIsStored(cfg: Config, env: Collaborators, params: Fields, query: map<string, string>,
                             session: Fields, error: string)
    requires Get(params, "provider").Str?
    requires env.authenticate(Get(params, "provider").s, query).Some?
    requires cfg.sessionKey != RedirectKey
    ensures var provider := Get(params, "provider").s;
      var resolution := ResolveUser(cfg, env, ProfileFor(env, provider, env.authenticate(provider, query).value), session);
      var r := Callback(cfg, env, params, query, session, error);
      resolution.Resolved? ==>
        && var projection := UserProjection(cfg, resolution.user);
        && cfg.passwordField !in projection.fields
        && cfg.sessionKey in r.session
        && r.session[cfg.sessionKey] == (if env.afterIdentify(projection) != Null then env.afterIdentify(projection) else projection)
        && !Truthy(Get(r.session, RedirectKey))
        && (forall k :: k != cfg.sessionKey && k != RedirectKey ==> Get(r.session, k) == Get(session, k))
        && r.error == error
        && r.response == Redirect(env.url(if Truthy(Get(session, RedirectKey)) then session[RedirectKey] else cfg.loginRedirect))
  {
    var provider := Get(params, "provider").s;
    var resolution := ResolveUser(cfg, env, ProfileFor(env, provider, env.authenticate(provider, query).value), session);
    if resolution.Resolved? {
      var projection := UserProjection(cfg, resolution.user);
      var written := session[cfg.sessionKey := Identified(env, projection)];
      assert Get(written, RedirectKey) == Get(session, RedirectKey);
      var (target, after) := TakeRedirect(written, cfg.loginRedirect);
      assert Callback(cfg, env, params, query, session, error) == CallbackResult(Redirect(env.url(target)), after, error);
      assert Get(after, cfg.sessionKey) == Identified(env, projection);
    }
  }
}
