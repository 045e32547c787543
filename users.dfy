/**
 * Users and their external identities (the User model exercised by
 * spec/models/user_spec.rb): the users table keyed by id, the
 * authorizations linking a (provider, uid) pair to a user, and the
 * subscriptions of users to questions.
 */
module Users {
  import opened Wrappers
  import opened Schema
  import Text

  /** The longest email a user may have (the length test of spec/models/user_spec.rb:8). */
  const MaxEmailLength: nat := 150

  /** The per-record email rules: present (not blank) and at most 150 characters. */
  predicate WellFormedEmail(e: string)
  {
    !Text.Blank(e) && |e| <= MaxEmailLength
  }

  /** An email as the table holds it: well formed and already in lower case. */
  predicate StoredEmail(e: string)
  {
    WellFormedEmail(e) && Text.LowerCase(e)
  }

  /** A well-formed email, once downcased, is what the table stores. */
  lemma DowncasedEmailStorable(e: string)
    requires WellFormedEmail(e)
    ensures StoredEmail(Text.Downcase(e))
  {
  }

  /** One row of the authorizations table: this external identity belongs to `user`. */
  datatype Authorization = Authorization(provider: string, uid: string, user: UserId)

  /** What an identity provider hands back after sign-in: provider, uid and, maybe, an email. */
  datatype OauthAssertion = OauthAssertion(provider: string, uid: string, email: Option<string>)

  /** Why creating a user was refused. */
  datatype EmailError = EmailBlank | EmailTooLong | EmailTaken

  /** `user.authorizations`: the rows owned by `u`, oldest first. */
  function AuthorizationsOf(auths: seq<Authorization>, u: UserId): (r: seq<Authorization>)
    ensures forall i :: 0 <= i < |r| ==> r[i].user == u && r[i] in auths
    ensures forall x :: x in auths && x.user == u ==> x in r
  {
    if auths == [] then []
    else (if auths[0].user == u then [auths[0]] else []) + AuthorizationsOf(auths[1..], u)
  }

  /** A new row shows up at the end of its owner's list and nowhere else. */
  lemma {:induction false} AuthorizationsOfAppend(auths: seq<Authorization>, x: Authorization, u: UserId)
    ensures AuthorizationsOf(auths + [x], u) ==
      if x.user == u then AuthorizationsOf(auths, u) + [x] else AuthorizationsOf(auths, u)
  {
    var t := auths + [x];
    if auths == [] {
      assert t == [x] && t[1..] == [];
    } else {
      assert t[0] == auths[0] && t[1..] == auths[1..] + [x];
      AuthorizationsOfAppend(auths[1..], x, u);
      var head := if auths[0].user == u then [auths[0]] else [];
      assert AuthorizationsOf(t, u) == head + AuthorizationsOf(auths[1..] + [x], u);
      assert AuthorizationsOf(auths, u) == head + AuthorizationsOf(auths[1..], u);
    }
  }

  /** A user no row points to has no authorizations. */
  lemma {:induction false} AuthorizationsOfNobody(auths: seq<Authorization>, u: UserId)
    requires forall i :: 0 <= i < |auths| ==> auths[i].user != u
    ensures AuthorizationsOf(auths, u) == []
  {
    if auths != [] {
      AuthorizationsOfNobody(auths[1..], u);
    }
  }

  /** The authorization row for a (provider, uid) pair: the position of the first row carrying it, if any. */
  function FindAuthorization(auths: seq<Authorization>, provider: string, uid: string): (r: Option<nat>)
    ensures r.Some? ==> r.value < |auths| && auths[r.value].provider == provider && auths[r.value].uid == uid
    ensures r.Some? ==> forall i :: 0 <= i < r.value ==> !(auths[i].provider == provider && auths[i].uid == uid)
    ensures r.None? ==> forall i :: 0 <= i < |auths| ==> !(auths[i].provider == provider && auths[i].uid == uid)
  {
    if auths == [] then None
    else if auths[0].provider == provider && auths[0].uid == uid then Some(0)
    else match FindAuthorization(auths[1..], provider, uid)
      case None => None
      case Some(i) => Some(i + 1)
  }

  /** A row for a pair no earlier row carries is found at its own position, the end. */
  lemma {:induction false} FindAppended(auths: seq<Authorization>, x: Authorization)
    requires FindAuthorization(auths, x.provider, x.uid).None?
    ensures FindAuthorization(auths + [x], x.provider, x.uid) == Some(|auths|)
  {
    if auths != [] {
      assert (auths + [x])[1..] == auths[1..] + [x];
      FindAppended(auths[1..], x);
    }
  }

  class UserStore {
    /** The users table: id to stored email. */
    var users: map<UserId, string>
    /** The authorizations table, in creation order. */
    var authorizations: seq<Authorization>
    /** The `questions_subscribed_to` join table. */
    var subscriptions: set<(UserId, QuestionId)>
    /** The id the next created user receives. */
    var nextUserId: UserId

    /** The table constraints: emails well formed, lower case and unique; every
        authorization and subscription points at a user; at most one
        authorization per (provider, uid). */
    ghost predicate Valid()
      reads this
    {
      && (forall u :: u in users ==> u < nextUserId && StoredEmail(users[u]))
      && (forall u, v :: u in users && v in users && u != v ==> users[u] != users[v])
      && (forall i :: 0 <= i < |authorizations| ==> authorizations[i].user in users)
      && (forall i, j :: 0 <= i < j < |authorizations| ==>
            !(authorizations[i].provider == authorizations[j].provider &&
              authorizations[i].uid == authorizations[j].uid))
      && (forall s :: s in subscriptions ==> s.0 in users)
    }

    /** An empty database. */
    constructor ()
      ensures Valid()
      ensures users == map[] && authorizations == [] && subscriptions == {}
    {
      users := map[];
      authorizations := [];
      subscriptions := {};
      nextUserId := 0;
    }

    /** The owner of the (provider, uid) identity, if it is linked to anyone. */
    function Owner(provider: string, uid: string): (r: Option<UserId>)
      reads this
      ensures r.Some? <==>
        exists i :: 0 <= i < |authorizations| && authorizations[i].provider == provider && authorizations[i].uid == uid
      ensures r.Some? ==> Authorization(provider, uid, r.value) in authorizations
    {
      match FindAuthorization(authorizations, provider, uid)
      case None => None
      case Some(i) => Some(authorizations[i].user)
    }

    /** The user whose email equals `e` ignoring case, if there is one. */
    function UserWithEmail(e: string): (r: Option<UserId>)
      reads this
      requires Valid()
      ensures r.Some? ==> r.value in users && users[r.value] == Text.Downcase(e)
      ensures r.None? ==> forall u :: u in users ==> users[u] != Text.Downcase(e)
    {
      var d := Text.Downcase(e);
      if exists u :: u in users && users[u] == d then
        var u :| u in users && users[u] == d; Some(u)
      else None
    }

    /** `user.authorizations` for the user `u`. */
    function AuthorizationsFor(u: UserId): (r: seq<Authorization>)
      reads this
      ensures forall i :: 0 <= i < |r| ==> r[i].user == u && r[i] in authorizations
      ensures forall x :: x in authorizations && x.user == u ==> x in r
    {
      AuthorizationsOf(authorizations, u)
    }

    /** `User.all_but(user)`: every user except the given one. */
    function AllBut(u: UserId): (r: set<UserId>)
      reads this
      ensures u !in r
      ensures forall v :: v in users && v != u ==> v in r
      ensures r <= users.Keys
    {
      users.Keys - {u}
    }

    /** `user.subscribed_to?(question)`. */
    predicate SubscribedTo(u: UserId, q: QuestionId)
      reads this
    {
      (u, q) in subscriptions
    }

    /** Creating a user (sign-up, or the first sign-in through a provider):
        the email must be present, at most 150 characters and not taken by
        another user in any letter case; it is stored in lower case. */
    method CreateUser(email: string) returns (r: Result<UserId, EmailError>)
      requires Valid()
      modifies this
      ensures Valid()
      ensures authorizations == old(authorizations) && subscriptions == old(subscriptions)
      ensures Text.Blank(email) ==> r == Err(EmailBlank)
      ensures !Text.Blank(email) && |email| > MaxEmailLength ==> r == Err(EmailTooLong)
      ensures WellFormedEmail(email) && old(UserWithEmail(email)).Some? ==> r == Err(EmailTaken)
      ensures r.Err? <==> !WellFormedEmail(email) || old(UserWithEmail(email)).Some?
      ensures r.Err? ==> users == old(users)
      ensures r.Ok? ==>
        && WellFormedEmail(email) && old(UserWithEmail(email)).None?
        && r.value !in old(users)
        && users == old(users)[r.value := Text.Downcase(email)]
        && |users| == |old(users)| + 1
        && AuthorizationsFor(r.value) == []
    {
      if Text.Blank(email) {
        return Err(EmailBlank);
      }
      if |email| > MaxEmailLength {
        return Err(EmailTooLong);
      }
      if UserWithEmail(email).Some? {
        return Err(EmailTaken);
      }
      var id := nextUserId;
      var stored := Text.Downcase(email);
      DowncasedEmailStorable(email);
      AuthorizationsOfNobody(authorizations, id);
      users := users[id := stored];
      nextUserId := nextUserId + 1;
      r := Ok(id);
    }

    /** `user.authorizations.create(provider:, uid:)`: link a so far unknown
        identity to an existing user. */
    method Link(u: UserId, provider: string, uid: string)
      requires Valid() && u in users && Owner(provider, uid).None?
      modifies this
      ensures Valid()
      ensures users == old(users) && subscriptions == old(subscriptions)
      ensures authorizations == old(authorizations) + [Authorization(provider, uid, u)]
      ensures AuthorizationsFor(u) == old(AuthorizationsFor(u)) + [Authorization(provider, uid, u)]
      ensures forall v :: v != u ==> AuthorizationsFor(v) == old(AuthorizationsFor(v))
      ensures Owner(provider, uid) == Some(u)
    {
      var link := Authorization(provider, uid, u);
      forall v {
        AuthorizationsOfAppend(authorizations, link, v);
      }
      FindAppended(authorizations, link);
      authorizations := authorizations + [link];
    }

    /** `User.find_for_oauth(auth)`: resolve an identity assertion to a local user.
        1. the (provider, uid) pair is already linked: its owner, nothing written;
        2. else the assertion's email belongs to a user (ignoring case): a new
           authorization for that user, no new user;
        3. else the email is new: one new user with that email and one
           authorization for it (refused, with nothing written, when the
           email fails the user validations);
        4. else there is no email: nil, nothing written. */
    method FindForOauth(auth: OauthAssertion) returns (r: Option<UserId>)
      requires Valid()
      modifies this
      ensures Valid()
      ensures subscriptions == old(subscriptions)
      // 1. already linked
      ensures old(Owner(auth.provider, auth.uid)).Some? ==>
        && r == old(Owner(auth.provider, auth.uid))
        && users == old(users) && authorizations == old(authorizations)
      // 2. a user with this email exists
      ensures old(Owner(auth.provider, auth.uid)).None? && auth.email.Some? &&
              old(UserWithEmail(auth.email.value)).Some? ==>
        && r == old(UserWithEmail(auth.email.value))
        && users == old(users)
        && authorizations == old(authorizations) + [Authorization(auth.provider, auth.uid, r.value)]
        && AuthorizationsFor(r.value) ==
             old(AuthorizationsFor(r.value)) + [Authorization(auth.provider, auth.uid, r.value)]
      // 3. a new email
      ensures old(Owner(auth.provider, auth.uid)).None? && auth.email.Some? &&
              old(UserWithEmail(auth.email.value)).None? && WellFormedEmail(auth.email.value) ==>
        && r.Some? && r.value !in old(users)
        && users == old(users)[r.value := Text.Downcase(auth.email.value)]
        && |users| == |old(users)| + 1
        && authorizations == old(authorizations) + [Authorization(auth.provider, auth.uid, r.value)]
        && AuthorizationsFor(r.value) == [Authorization(auth.provider, auth.uid, r.value)]
        && (Text.LowerCase(auth.email.value) ==> users[r.value] == auth.email.value)
      ensures old(Owner(auth.provider, auth.uid)).None? && auth.email.Some? &&
              old(UserWithEmail(auth.email.value)).None? && !WellFormedEmail(auth.email.value) ==>
        r == None && users == old(users) && authorizations == old(authorizations)
      // 4. no email
      ensures old(Owner(auth.provider, auth.uid)).None? && auth.email.None? ==>
        r == None && users == old(users) && authorizations == old(authorizations)
      // a resolved identity is linked afterwards, so asking again takes case 1
      ensures r.Some? ==> r.value in users && Owner(auth.provider, auth.uid) == r
    {
      var found := FindAuthorization(authorizations, auth.provider, auth.uid);
      if found.Some? {
        return Some(authorizations[found.value].user);
      }
      if auth.email.None? {
        return None;
      }
      var email := auth.email.value;
      var u: UserId;
      var existing := UserWithEmail(email);
      if existing.Some? {
        u := existing.value;
      } else {
        Text.DowncaseNormalises(email);
        var created := CreateUser(email);
        if created.Err? {
          return None;
        }
        u := created.value;
      }
      Link(u, auth.provider, auth.uid);
      r := Some(u);
    }

    /** `user.subscribe_to_new_answers(question)`: afterwards the user is
        subscribed to the question; subscribing twice is subscribing once. */
    method SubscribeToNewAnswers(u: UserId, q: QuestionId)
      requires Valid() && u in users
      modifies this
      ensures Valid()
      ensures users == old(users) && authorizations == old(authorizations)
      ensures SubscribedTo(u, q)
      ensures forall v, p :: SubscribedTo(v, p) <==> old(SubscribedTo(v, p)) || (v == u && p == q)
      ensures old(SubscribedTo(u, q)) ==> subscriptions == old(subscriptions)
    {
      subscriptions := subscriptions + {(u, q)};
    }
  }
}
