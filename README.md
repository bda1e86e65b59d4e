# Moderation emails of the community platform

This project models the moderation-email pipeline of the community platform.
A how-to or a map pin can change its moderation state (`draft`,
`awaiting-moderation`, `accepted`, `rejected`). When it does,
`handleModerationUpdate(change, builder)` asks a kind-specific builder
(`createHowtoModerationEmail` or `createMapPinModerationEmail`) whether the
content's owner gets an email. If the builder returns a record, the handler
adds it to the `emails` collection. A record is `{to, message: {subject, html}}`.

The implementation of these functions is not part of this model; the model
follows what the test suite
`functions/src/emailNotifications/createModerationEmails.spec.ts` asserts.

- `moderation.dfy` (module `Moderation`): the moderation states, their stored
  names, and `Classify`. The snapshots hold the parsed state, so the
  name/state round trip stands apart from the builders: a document whose
  `moderation` string is not one of the four names is not modelled. A write counts as approved when the content becomes
  `accepted`. It counts as submitted when the content becomes
  `awaiting-moderation`. Every other write is a no-op.
- `templates.dfy` (module `Templates`): `Render`, the subject and HTML of the
  four emails. The HTML is described only by the substrings it must contain,
  as the tests check it.
- `moderation_emails.dfy` (module `ModerationEmails`): the role gate
  `IsBetaTester`, the two builders, and the class `EmailStore`. Its `emails`
  field is the collection, and its method `HandleModerationUpdate` appends at
  most one record per call.
- `moderation_scenarios.dfy` (module `ModerationScenarios`): the eight test
  cases, each written as a verified client. It starts from an empty store,
  handles one change, and states what the store then holds.
- `text.dfy` (module `Text`): string concatenation and substring containment.

Values the pipeline reads from its surroundings are parameters, bundled in
`Env`:
- the user directory, a map from user id to profile;
- the authentication service's address lookup, a map from auth id to email
  address;
- the site's base URL;
- the template constants `EmailConstants` (the four subjects and the sign-off block), whose
  text is defined outside this model.

How each builder finds the owner:
- a how-to's owner is its creating user;
- a map pin's owner is the user whose id equals the pin's id.

An owner gets no email when any of these holds:
- the owner is missing from the directory;
- the owner does not have the `beta-tester` role;
- the owner has no address at the authentication service.

The source does not show how a failed lookup is handled. This model treats
it the same way as failing the role gate.

Choices made where the tests are silent:
- Only the tested transitions are fixed by the source. The rule also covers
  transitions the tests never try, for example `accepted` to
  `awaiting-moderation`, which `Classify` reports as a submission.
- The handler receives a change tagged with its collection (`HowToChange` or
  `MapPinChange`). The builder is chosen from that tag instead of being passed
  in as a function.
- Apart from the substrings the tests check, the HTML layout is made up by the
  model. The map pin approval sentence "Your map pin has been approved." is
  made up too. Submission emails carry no link.
- The email is rendered from the after-snapshot of the change.

## Model

| member | source | states |
|---|---|---|
| `Moderation.ParseStatusName` | functions/src/emailNotifications/createModerationEmails.spec.ts:216-224 | the stored moderation names (`accepted`, `awaiting-moderation`, ...) and the parsed states match in both directions, and parsing a state's name gives that state back |
| `Moderation.ParseStatus` | functions/src/emailNotifications/createModerationEmails.spec.ts:68-71 | a recognised moderation string is the stored name of the state it parses to |
| `Moderation.Classify` | functions/src/emailNotifications/createModerationEmails.spec.ts:66-187 | approved if and only if the content became accepted from another state; submitted if and only if it became awaiting moderation from another state; a no-op exactly when the state is unchanged or the new state is neither |
| `ModerationEmails.IsBetaTester` | functions/src/emailNotifications/createModerationEmails.spec.ts:47-57 | the role gate holds exactly when `beta-tester` is among the user's roles |
| `Templates.Render` | functions/src/emailNotifications/createModerationEmails.spec.ts:92-104 | the subject is the constant for the content kind and the outcome; the HTML contains `Hey <displayName>` and the sign-off; for a how-to the HTML contains `Huzzah! Your How-To <title> has been approved.` or `... has been submitted.`; for a map pin submission it contains `Your map pin has been submitted.`; an approval contains `<site>/how-to/<id>` or `<site>/map#<id>` |
| `ModerationEmails.CreateHowtoModerationEmail` | functions/src/emailNotifications/createModerationEmails.spec.ts:66-187 | an email is built if and only if the how-to became accepted or became awaiting moderation and its creator is eligible; the email goes to the creator's auth address, greets the creator, contains the sign-off, and carries the approval subject, title sentence and link, or the submission subject and sentence |
| `ModerationEmails.CreateMapPinModerationEmail` | functions/src/emailNotifications/createModerationEmails.spec.ts:216-343 | an email is built if and only if the pin became accepted or became awaiting moderation and the user whose id is the pin's id is eligible; the email goes to that user's auth address, greets them, contains the sign-off, and carries the approval subject and the `/map#<id>` link, or the submission subject and sentence |
| `ModerationEmails.NoEmailWithoutBetaRole` | functions/src/emailNotifications/createModerationEmails.spec.ts:148-167 | for how-tos and map pins alike, an owner without the beta-tester role gets no email, whatever the transition |
| `ModerationEmails.NoEmailForIneligibleOwner` | functions/src/emailNotifications/createModerationEmails.spec.ts:298-320 | for how-tos and map pins alike, an owner who is missing from the directory, lacks the beta-tester role or has no auth address gets no email, whatever the transition |
| `ModerationEmails.NoEmailUnlessAcceptedOrAwaiting` | functions/src/emailNotifications/createModerationEmails.spec.ts:169-187 | a write that leaves the content in `draft` or `rejected` (for example `accepted` to `draft`) builds no email |
| `ModerationEmails.NoEmailOnUnchangedStatus` | functions/src/emailNotifications/createModerationEmails.spec.ts:72-77 | a write whose before and after states are equal builds no email, so an accepted document that is saved again gets no second approval |
| `ModerationEmails.EmailStore.constructor` | functions/src/emailNotifications/createModerationEmails.spec.ts:43-45 | the `emails` collection starts empty |
| `ModerationEmails.EmailStore.HandleModerationUpdate` | functions/src/emailNotifications/createModerationEmails.spec.ts:79-83 | the collection becomes the old one plus the built record when the builder makes one, and stays unchanged otherwise; it grows by at most one record per call |
| `ModerationScenarios.AcceptedHowtoCreatesEmail` | functions/src/emailNotifications/createModerationEmails.spec.ts:66-107 | awaiting moderation to accepted for user 1's how-to: exactly one record, to `test@test.com`, with the how-to approval subject and HTML containing `Hey User 1`, `Huzzah! Your How-To Mock Howto has been approved.`, `https://community.preciousplastic.com/how-to/00_user_1_howto` and the sign-off |
| `ModerationScenarios.ResubmittedHowtoCreatesEmail` | functions/src/emailNotifications/createModerationEmails.spec.ts:109-146 | rejected to awaiting moderation: exactly one record, to `test@test.com`, with the how-to submission subject and HTML containing `Hey User 1`, `Huzzah! Your How-To Mock Howto has been submitted.` and the sign-off |
| `ModerationScenarios.NonBetaTesterHowtoCreatesNoEmail` | functions/src/emailNotifications/createModerationEmails.spec.ts:149-167 | approving the how-to of a user without roles leaves the collection empty |
| `ModerationScenarios.DraftHowtoCreatesNoEmail` | functions/src/emailNotifications/createModerationEmails.spec.ts:169-187 | accepted to draft leaves the collection empty |
| `ModerationScenarios.AcceptedMapPinCreatesEmail` | functions/src/emailNotifications/createModerationEmails.spec.ts:216-256 | awaiting moderation to accepted for pin `user_1`: exactly one record, to `test@test.com`, with the map pin approval subject and HTML containing `Hey User 1`, `https://community.preciousplastic.com/map#user_1` and the sign-off |
| `ModerationScenarios.ResubmittedMapPinCreatesEmail` | functions/src/emailNotifications/createModerationEmails.spec.ts:258-296 | rejected to awaiting moderation for pin `user_1`: exactly one record, to `test@test.com`, with the map pin submission subject and HTML containing `Hey User 1`, `Your map pin has been submitted.` and the sign-off |
| `ModerationScenarios.NonBetaTesterMapPinCreatesNoEmail` | functions/src/emailNotifications/createModerationEmails.spec.ts:299-320 | approving the pin of a user without roles leaves the collection empty |
| `ModerationScenarios.DraftMapPinCreatesNoEmail` | functions/src/emailNotifications/createModerationEmails.spec.ts:322-343 | awaiting moderation to draft for a pin leaves the collection empty |

## Left out

- The Firestore database, its seeding, and `count()` queries: the collection is an in-memory sequence.
- The asynchronous structure: each handler call is one sequential step.
- The authentication service and the deployment configuration are parameters, not the services themselves.
- Snapshot comparison of the full HTML: the layout, the subject constants and the sign-off text are defined in template files that are not part of this model. The HTML is described only by the substrings it contains.
- Store write failures and their retry by the event system are not modelled. The handler never fails.
- Retrying the same change: each call to `HandleModerationUpdate` appends again. The model does not deduplicate across repeated deliveries of one change, and the source shows no such mechanism.
- A change passed to the builder of the other content kind cannot be expressed: a change carries its kind.
- The profile page, the settings focus section, the contact form (which sends a message over the network), the theme constants and the library re-exports: these are interface code with no part in the pipeline.
