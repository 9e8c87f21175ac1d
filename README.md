# HybridAuth middleware: a Dafny model

This project models `HybridAuthMiddleware`, the request middleware of the
CakePHP social-login plugin `ADmad/HybridAuth`. The middleware takes over two
routes of the plugin (`login` and `callback`). For a callback it does these steps:

1. It turns the identity the provider returns into a social-profile record. The
   record is the stored one for (provider, identifier), or a new one seeded with
   the provider name, patched through a fixed field-rename table.
2. It resolves the local user. A linked profile is looked up through the
   configured finder. An unlinked profile gets the user from the application's
   `getUser` callback and is linked to that user's id.
3. It saves the profile when it is dirty.
4. It attaches the profile to the user and strips the password field.
5. It lets an `afterIdentify` listener replace the user, and writes the user to
   the session.
6. It redirects to a remembered post-login target, or else to the configured
   default.

Failures redirect to the login page with `?error=<code>`. Contract violations
raise exceptions.

Layout, one module per component:

- `values.dfy` (`Values`): PHP values, PHP truthiness, `Entity::toArray`.
- `routing.dfy` (`Routing`): the request filter of `process` and the handler
  name it builds with `ucfirst`.
- `profile_fields.dfy` (`ProfileFields`): the rename switch, the loop that
  builds the patch, and the lemmas about that patch.
- `redirects.dfy` (`Redirects`): the open-redirect guard, the remembered target
  in the session (stored, then read-then-delete), and
  `_appendRedirectQueryString`.
- `entities.dfy` (`Entities`): entity states (fields plus dirty marks), the
  `Entity` and `Session` classes that hold them, and `patchEntity`.
- `reconcile.dfy` (`Reconcile`): the workflow as pure functions. These are
  `_patchProfile` on values, `_getUser` as `ResolveUser`, and the whole callback
  as `Callback`, each with lemmas about it.
- `middleware.dfy` (`Middleware`): the `HybridAuthMiddleware` class. Its
  methods change the entities, the session and the `_error` field in place.
  Each method is proved to compute what the matching `Reconcile` or
  `Redirects` function says.

The external collaborators are parameters (`Reconcile.Collaborators`):

- the provider handshake
- the profile and user lookups
- the `getUser` callback
- the profile save
- the `afterIdentify` listener
- `Router::url`
- `urlencode`, passed to `AppendRedirectQueryString`

Where the source and its documentation disagree, the model follows the code.
The error redirect always appends `?error=`, even when the login URL already
has a query string.

The source as written is unfinished in places. The model follows the evident
intent:

- The constructor's dangling `$this->` at :130 is left out.
- A rejected login goes to the `provider_failure` path kept in the
  commented-out block at :264-278. As written, the code would instead read an
  undefined `$identity`.

## Model

| member | source | states |
|---|---|---|
| `Values.EntityToArray` | src/Middleware/HybridAuthMiddleware.php:209-211 | converting the user to an array keeps exactly its keys and yields an array, not an entity; a scalar or null field keeps its value, an entity-valued field is converted in turn; a list or array field keeps its length or keys, each entity element converted in turn and every other element kept |
| `Values.FieldToArray` | src/Middleware/HybridAuthMiddleware.php:209-211 | one field of the conversion: an entity becomes its own `toArray` (an array with the same keys); a list or array keeps its shape, each entity element converted and every other element unchanged; any other value is unchanged |
| `Routing.Route` | src/Middleware/HybridAuthMiddleware.php:143-152 | a request is taken over exactly when plugin is `ADmad/HybridAuth`, controller is `Auth` and action is `login` or `callback` (strict comparison); a taken-over request goes to the handler of exactly its action |
| `Routing.RouteReachesDeclaredHandler` | src/Middleware/HybridAuthMiddleware.php:154-156 | the name built as `_handle` + ucfirst(action) + `Action` is always the declared handler of the routed action |
| `Routing.RouteReadsOnlyTarget` | src/Middleware/HybridAuthMiddleware.php:143-150 | the filter depends on no routing parameter other than plugin, controller and action |
| `Middleware.HybridAuthMiddleware.Process` | src/Middleware/HybridAuthMiddleware.php:141-157 | other requests get the next handler's response, and the middleware itself writes neither the session nor the error; login ends in the stub's debug dump; callback produces exactly the response, session and error of `Callback` |
| `ProfileFields.Rename` | src/Middleware/HybridAuthMiddleware.php:390-418 | the switch maps each of the eight listed property names to its column and passes every other name through; its result is never one of the eight names |
| `ProfileFields.BuildPatch` | src/Middleware/HybridAuthMiddleware.php:386-419 | the loop builds exactly `Patch(identity)`; every property's renamed column is present, and no renamed-away name is |
| `ProfileFields.PatchColumns` | src/Middleware/HybridAuthMiddleware.php:386-419 | the patch's keys are exactly the renamed names of the identity's properties, so `id`, `lastname`, `firstname`, `birthday`, `emailVerified`, `fullname`, `sex`, `pictureURL` never appear |
| `ProfileFields.PatchValue` | src/Middleware/HybridAuthMiddleware.php:389-419 | each property's value is found under its renamed column unless a later property writes the same column |
| `ProfileFields.PatchExample` | src/Middleware/HybridAuthMiddleware.php:391-411 | `id=42, firstname=Ann, sex=f` gives exactly `identifier=42, first_name=Ann, gender=f` |
| `ProfileFields.PropertyOfDistinct` | src/Middleware/HybridAuthMiddleware.php:284 | reading a property by name (`$identity->identifier`) gives that property's value |
| `Entities.PatchEntity` | src/Middleware/HybridAuthMiddleware.php:421 | after patching, each given field reads its new value and every other field its old one; exactly the fields whose value changed become dirty |
| `Entities.PatchWithSameValuesIsClean` | src/Middleware/HybridAuthMiddleware.php:421 | patching a clean entity with the values it already holds changes nothing and leaves it clean |
| `Entities.Entity.Create` | src/Middleware/HybridAuthMiddleware.php:381-383 | a new entity holds the given fields, all of them dirty |
| `Entities.Entity.Load` | src/Middleware/HybridAuthMiddleware.php:337-342 | a found row is an entity with nothing dirty |
| `Entities.Entity.Set` | src/Middleware/HybridAuthMiddleware.php:353 | `set` stores the value and marks the field dirty |
| `Entities.Entity.Unset` | src/Middleware/HybridAuthMiddleware.php:361 | `unset` removes the field and its dirty mark |
| `Entities.Entity.Patch` | src/Middleware/HybridAuthMiddleware.php:421 | the entity's new state is `PatchEntity` of its old state |
| `Entities.Saved` | src/Middleware/HybridAuthMiddleware.php:459 | after a successful save every field reads the value the save wrote back, or else its own value, and nothing is dirty |
| `Entities.Entity.MarkSaved` | src/Middleware/HybridAuthMiddleware.php:459 | the entity's new state is `Saved` of its old state and the written-back fields |
| `Entities.Session.Write` | src/Middleware/HybridAuthMiddleware.php:219 | the session maps the key to the value and is otherwise unchanged |
| `Entities.Session.Delete` | src/Middleware/HybridAuthMiddleware.php:473 | the key is gone and the rest of the session is unchanged |
| `Reconcile.PatchedProfile` | src/Middleware/HybridAuthMiddleware.php:375-422 | patched columns hold the patch's values; other fields keep the stored record's values, or for a new record only `provider` = provider name; a new record is always dirty |
| `Reconcile.ResolveUser` | src/Middleware/HybridAuthMiddleware.php:327-364 | finder failure happens exactly when the profile has a truthy user_id and the finder finds nothing; an unlinked profile whose callback returns no entity is fatal; a resolved user has no password field and carries the resolved profile under `social_profile`, and that profile is clean |
| `Reconcile.LinkedProfileResolvesToFoundUser` | src/Middleware/HybridAuthMiddleware.php:331-363 | a linked profile whose user is found resolves to that user with the profile attached and no password; a clean profile is attached as it is; a dirty one is saved, a failed save is fatal, and a saved one carries the fields the save writes back |
| `Reconcile.FinderFailureConsultsNothingElse` | src/Middleware/HybridAuthMiddleware.php:331-350 | a linked profile whose user is not found fails with finder_failure whatever the callback, the save or the session: neither is consulted |
| `Reconcile.UnlinkedProfileIsLinkedToCallbackUser` | src/Middleware/HybridAuthMiddleware.php:352-363 | an unlinked profile gets user_id = the callback user's id; it is always saved; a failed save is fatal; otherwise the result is the callback's user with the saved profile (including the fields the save writes back) attached and no password |
| `Reconcile.CleanProfileIsNotSaved` | src/Middleware/HybridAuthMiddleware.php:356-358 | a linked profile with nothing dirty is never saved: the outcome does not depend on the save, and the profile comes back as it was |
| `Reconcile.UnchangedRepeatLoginSavesNothing` | src/Middleware/HybridAuthMiddleware.php:281-292 | a repeat login whose identity matches the stored, linked record reuses that record, leaves it clean, finds the user and saves nothing |
| `Reconcile.UserProjection` | src/Middleware/HybridAuthMiddleware.php:207-211 | the user handed to the listener has no password field, whatever the `userEntity` setting, and is an entity exactly when `userEntity` is set |
| `Reconcile.Callback` | src/Middleware/HybridAuthMiddleware.php:185-224 | a redirect that records a new error code leaves the session unchanged; an exception leaves session and error unchanged |
| `Reconcile.FailedLoginRedirectsWithError` | src/Middleware/HybridAuthMiddleware.php:193-205 | a provider failure or a finder failure responds with Location = url(loginUrl) + `?error=provider_failure` or `?error=finder_failure` and leaves the session unchanged |
| `Reconcile.ResolvedUserIsStored` | src/Middleware/HybridAuthMiddleware.php:207-223 | on success the session key holds the listener's result when it is not null, else the password-free user; the remembered target is spent; every other session key is unchanged; the redirect goes to it, or to `loginRedirect` when none was stored |
| `Middleware.HybridAuthMiddleware.constructor` | src/Middleware/HybridAuthMiddleware.php:120-129 | the middleware keeps its configuration and collaborators, with no error recorded |
| `Middleware.HybridAuthMiddleware.HandleCallback` | src/Middleware/HybridAuthMiddleware.php:185-224 | the response, the new session and the new error code are exactly those of `Callback` for the old session and error |
| `Middleware.HybridAuthMiddleware.GetProfile` | src/Middleware/HybridAuthMiddleware.php:247-293 | a rejected login sets the error to provider_failure and gives null; otherwise gives a new profile object whose state is `ProfileFor` the identity |
| `Middleware.HybridAuthMiddleware.PatchProfile` | src/Middleware/HybridAuthMiddleware.php:375-422 | with no profile, a fresh one seeded with `provider` is patched; otherwise the given profile itself is patched, with the renamed identity |
| `Middleware.HybridAuthMiddleware.GetUser` | src/Middleware/HybridAuthMiddleware.php:327-364 | finder failure gives null, records finder_failure and leaves the profile unchanged; a fatal case raises its message; otherwise gives a fresh user and the profile state that `ResolveUser` computes |
| `Middleware.HybridAuthMiddleware.GetUserEntity` | src/Middleware/HybridAuthMiddleware.php:435-446 | gives the callback's user as a new entity, or nothing (the RuntimeException) when the callback returns no entity |
| `Middleware.HybridAuthMiddleware.SaveProfile` | src/Middleware/HybridAuthMiddleware.php:457-462 | reports whether the save succeeded (failure is the RuntimeException); a saved profile takes the fields the save writes back (such as a generated id) and is clean; an unsaved one is unchanged |
| `Redirects.StoreRedirect` | src/Middleware/HybridAuthMiddleware.php:471-486 | the remembered target is always cleared, and is then present exactly when the query value passes the guard, holding that value; other keys are untouched |
| `Redirects.AcceptedRedirectIsLocalPath` | src/Middleware/HybridAuthMiddleware.php:477-483 | the guard (non-empty, `substr(0,1) == '/'`, `substr(0,2) != '//'`) accepts exactly strings whose first character is `/` and whose second, if any, is not `/` |
| `Redirects.RedirectGuardExamples` | src/Middleware/HybridAuthMiddleware.php:477-483 | `//evil.example`, `account`, the empty string and a missing value are refused; `/account/settings` is accepted |
| `Redirects.TakeRedirect` | src/Middleware/HybridAuthMiddleware.php:495-505 | a truthy stored target is returned and deleted; otherwise `loginRedirect` is returned and the session is unchanged; other keys are untouched |
| `Redirects.RedirectConsumedOnce` | src/Middleware/HybridAuthMiddleware.php:473-504 | an accepted target is returned by the first read, and the second read returns the fallback |
| `Redirects.RejectedRedirectFallsBack` | src/Middleware/HybridAuthMiddleware.php:477-504 | after a refused query value the read returns the fallback |
| `Middleware.HybridAuthMiddleware.SetRedirectUrl` | src/Middleware/HybridAuthMiddleware.php:471-486 | the new session is `StoreRedirect` of the old one with the request's `redirect` query value |
| `Middleware.HybridAuthMiddleware.GetRedirectUrl` | src/Middleware/HybridAuthMiddleware.php:495-505 | the result and the new session are `TakeRedirect` of the old session with `loginRedirect` |
| `Redirects.AppendRedirectQueryString` | src/Middleware/HybridAuthMiddleware.php:302-316 | a missing or falsy target leaves the URL unchanged; a route array keeps its parts and gets the raw target under `redirect` in its query; a string stays a string |
| `Redirects.AppendedRedirectIsLastParameter` | src/Middleware/HybridAuthMiddleware.php:311-312 | on a URL string the path before the first `?` is unchanged; the query becomes the old query + `&` (or nothing when there was no `?`) + `redirect=` + the encoded target |

## Left out

- The provider handshake (`new Hybridauth`, `authenticate`, `getUserProfile`,
  :251-255) is not modelled. It is the `authenticate` parameter: identity
  properties, or no identity when the provider rejects the login.
- The provider-exception code threshold at :258 is not modelled. It is a magic
  number inside a foreign library's error handling.
- Logging of provider failures (`logErrors`, `_getLogMessage`, :515-537) is
  left out because it is diagnostics only.
- `_handleLoginAction` (:166-176) is left out because it is an unfinished stub
  that ends in `dd()`. `Process` answers a login request with `DebugHalt` and
  models neither `allowMethod` nor the handshake.
- `_setupModelInstances`, the ORM query builder, `patchEntity` validation and
  `Table::save` internals are abstract. They are the `findProfile`, `findUser`
  and `saveProfile` parameters. `saveProfile` gives the fields a successful
  save writes back into the entity. A `newEntity` marks all given fields
  dirty.
- `Entities.PatchEntity`: the model assumes that a patch marks dirty only the
  fields whose value changed. The ORM skips equal values only for scalar, null
  and object values of table columns. A key without a column, or an array value
  (a provider profile's `data` property, for one), is always set and marked
  dirty, and the model does not capture that. `Reconcile.UnchangedRepeatLoginSavesNothing`
  rests on this assumption.
- Configuration defaults (`_defaultConfig`, :71-86) are not modelled. `Config`
  is given in full.
- `Middleware.HybridAuthMiddleware.Process`: the next handler is a pure
  function of the request. Its own writes to the session are not modelled.
- `_buildConfig` (:544-565) is left out. It reads an undefined variable and is
  configuration glue.
- `Router::url`, `urlencode` and `Configure::read` are left out. The first two
  are the `url` and `urlencode` parameters.
- The event dispatcher is left out. Only the listener's result, or null, is
  modelled, as the `afterIdentify` parameter.
- The getUser callback is a pure function of the profile and the session data.
  Any writes it makes to the session or to the database are not modelled.
- Session keys are flat strings. CakePHP's dotted-path nesting of session keys
  is not modelled.
- `Values.EntityToArray`: hidden and virtual entity fields are not modelled.
- PHP floats are not modelled.
- Array-valued query parameters are not modelled. Query values are strings.
- `Middleware.HybridAuthMiddleware.GetUser`: when a RuntimeException is
  raised, the contract does not state the profile's partly updated fields,
  because the exception ends the request.
- `src/Plugin.php` (route registration) is not part of this model.
