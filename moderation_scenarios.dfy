/** The moderation-email scenarios of the repository's test suite, as clients
    of the pipeline: each starts from an empty `emails` collection, handles
    one change, and states what the collection then holds. */
module ModerationScenarios {
  import opened Text
  import opened Moderation
  import opened Templates
  import opened ModerationEmails

  const SITE_URL: string := "https://community.preciousplastic.com"

  /** The authentication service answers every lookup with one address. */
  const TEST_EMAIL: string := "test@test.com"

  /** A beta tester and a user without roles; each user's auth id is their id. */
  function Users(): map<string, UserProfile>
  {
    map[
      "user_1" := UserProfile("user_1", "user_1", "User 1", "user_1", [BETA_TESTER]),
      "user_2" := UserProfile("user_2", "user_2", "User 2", "user_2", [])]
  }

  function TestEnv(text: EmailConstants): Env
  {
    Env(Users(), map["user_1" := TEST_EMAIL, "user_2" := TEST_EMAIL], SITE_URL, text)
  }

  /** The seeded how-to of the given owner, in the given state. */
  function MockHowto(uid: string, moderation: Status): HowTo
  {
    HowTo("00_" + uid + "_howto", "Mock Howto", uid, moderation)
  }

  /** User 1 is eligible, is greeted as "User 1" and is reached at the test
      address; User 2 fails the role gate. */
  lemma FixtureFacts(text: EmailConstants)
    ensures Eligible("user_1", TestEnv(text))
    ensures AddressOf("user_1", TestEnv(text)) == TEST_EMAIL
    ensures "Hey " + Users()["user_1"].displayName == "Hey User 1"
    ensures "user_2" in Users() && !IsBetaTester(Users()["user_2"].roles)
  {
  }

  /** The sentence the submission test looks for. */
  lemma HowtoSubmissionText()
    ensures "Huzzah! Your How-To " + MockHowto("user_1", Rejected).title + " has been submitted."
      == "Huzzah! Your How-To Mock Howto has been submitted."
  {
  }

  /** The link the map pin approval test looks for. */
  lemma MapPinApprovalText()
    ensures SITE_URL + "/map#" + "user_1" == "https://community.preciousplastic.com/map#user_1"
  {
  }

  /** The sentence and the link the approval test looks for. */
  lemma HowtoApprovalText()
    ensures "Huzzah! Your How-To " + MockHowto("user_1", Accepted).title + " has been approved."
      == "Huzzah! Your How-To Mock Howto has been approved."
    ensures SITE_URL + "/how-to/" + MockHowto("user_1", Accepted).id == "https://community.preciousplastic.com/how-to/00_user_1_howto"
  {
  }

  /** The beta tester's how-to goes from awaiting moderation to accepted. */
  method AcceptedHowtoCreatesEmail(text: EmailConstants) returns (store: EmailStore)
    ensures |store.emails| == 1
    ensures store.emails[0].to == TEST_EMAIL
    ensures store.emails[0].message.subject == text.howToApprovalSubject
    ensures Contains(store.emails[0].message.html, "Hey User 1")
    ensures Contains(store.emails[0].message.html, "Huzzah! Your How-To Mock Howto has been approved.")
    ensures Contains(store.emails[0].message.html, "https://community.preciousplastic.com/how-to/00_user_1_howto")
    ensures Contains(store.emails[0].message.html, text.signoff)
  {
    store := new EmailStore();
    var approved := MockHowto("user_1", Accepted);
    var change := HowToChange(MockHowto("user_1", AwaitingModeration), approved);
    var _ := store.HandleModerationUpdate(change, TestEnv(text));
    FixtureFacts(text);
    HowtoApprovalText();
  }

  /** The beta tester's rejected how-to is resubmitted for moderation. */
  method ResubmittedHowtoCreatesEmail(text: EmailConstants) returns (store: EmailStore)
    ensures |store.emails| == 1
    ensures store.emails[0].to == TEST_EMAIL
    ensures store.emails[0].message.subject == text.howToSubmissionSubject
    ensures Contains(store.emails[0].message.html, "Hey User 1")
    ensures Contains(store.emails[0].message.html, "Huzzah! Your How-To Mock Howto has been submitted.")
    ensures Contains(store.emails[0].message.html, text.signoff)
  {
    store := new EmailStore();
    var rejected := MockHowto("user_1", Rejected);
    var change := HowToChange(rejected, rejected.(moderation := AwaitingModeration));
    var _ := store.HandleModerationUpdate(change, TestEnv(text));
    FixtureFacts(text);
    HowtoSubmissionText();
  }

  /** An approval of a how-to whose owner is not a beta tester. */
  method NonBetaTesterHowtoCreatesNoEmail(text: EmailConstants) returns (store: EmailStore)
    ensures store.emails == []
  {
    store := new EmailStore();
    var approved := MockHowto("user_2", Accepted);
    var change := HowToChange(approved.(moderation := AwaitingModeration), approved);
    var _ := store.HandleModerationUpdate(change, TestEnv(text));
  }

  /** An accepted how-to is withdrawn to draft. */
  method DraftHowtoCreatesNoEmail(text: EmailConstants) returns (store: EmailStore)
    ensures store.emails == []
  {
    store := new EmailStore();
    var approved := MockHowto("user_1", Accepted);
    var change := HowToChange(approved, approved.(moderation := Draft));
    var _ := store.HandleModerationUpdate(change, TestEnv(text));
  }

  /** The beta tester's map pin goes from awaiting moderation to accepted. */
  method AcceptedMapPinCreatesEmail(text: EmailConstants) returns (store: EmailStore)
    ensures |store.emails| == 1
    ensures store.emails[0].to == TEST_EMAIL
    ensures store.emails[0].message.subject == text.mapPinApprovalSubject
    ensures Contains(store.emails[0].message.html, "Hey User 1")
    ensures Contains(store.emails[0].message.html, "https://community.preciousplastic.com/map#user_1")
    ensures Contains(store.emails[0].message.html, text.signoff)
  {
    store := new EmailStore();
    var change := MapPinChange(MapPin("user_1", AwaitingModeration), MapPin("user_1", Accepted));
    var _ := store.HandleModerationUpdate(change, TestEnv(text));
    FixtureFacts(text);
    MapPinApprovalText();
  }

  /** The beta tester's rejected map pin is resubmitted for moderation. */
  method ResubmittedMapPinCreatesEmail(text: EmailConstants) returns (store: EmailStore)
    ensures |store.emails| == 1
    ensures store.emails[0].to == TEST_EMAIL
    ensures store.emails[0].message.subject == text.mapPinSubmissionSubject
    ensures Contains(store.emails[0].message.html, "Hey User 1")
    ensures Contains(store.emails[0].message.html, "Your map pin has been submitted.")
    ensures Contains(store.emails[0].message.html, text.signoff)
  {
    store := new EmailStore();
    var change := MapPinChange(MapPin("user_1", Rejected), MapPin("user_1", AwaitingModeration));
    var _ := store.HandleModerationUpdate(change, TestEnv(text));
    FixtureFacts(text);
  }

  /** An approval of a map pin whose owner is not a beta tester. */
  method NonBetaTesterMapPinCreatesNoEmail(text: EmailConstants) returns (store: EmailStore)
    ensures store.emails == []
  {
    store := new EmailStore();
    var change := MapPinChange(MapPin("user_2", AwaitingModeration), MapPin("user_2", Accepted));
    var _ := store.HandleModerationUpdate(change, TestEnv(text));
  }

  /** A map pin awaiting moderation is moved back to draft. */
  method DraftMapPinCreatesNoEmail(text: EmailConstants) returns (store: EmailStore)
    ensures store.emails == []
  {
    store := new EmailStore();
    var change := MapPinChange(MapPin("user_1", AwaitingModeration), MapPin("user_1", Draft));
    var _ := store.HandleModerationUpdate(change, TestEnv(text));
  }
}
