/** The in-memory identity provider: its two dictionaries, as values and as an object. */
module Keycloak {
  import opened Errors
  import Text

  type Subject = nat
  type Password = string

  datatype Key = Key(realm: string, email: string)

  datatype Idp = Idp(users: map<Key, Subject>, passwords: map<Key, Password>, subjects: set<Subject>,
                     realms: set<string>)

  const PLATFORM := "platform"

  /** A provider process that has just started: it has forgotten every account. */
  const RESTARTED := Idp(map[], map[], {}, {PLATFORM})

  function KeyOf(realm: string, email: string): Key {
    Key(realm, Text.Lower(email))
  }

  /** The subject is the fresh identifier that the provider gives to a new account. */
  function Created(idp: Idp, realm: string, email: string, password: Password, subject: Subject): Option<Idp> {
    var key := KeyOf(realm, email);
    if key in idp.users then None
    else Some(Idp(idp.users[key := subject], idp.passwords[key := password],
                  idp.subjects + {subject}, idp.realms + {realm}))
  }

  function KeysOf(idp: Idp, realm: string, subject: Subject): set<Key> {
    set k | k in idp.users && k.realm == realm && idp.users[k] == subject
  }

  function Deleted(idp: Idp, realm: string, subject: Subject): Idp {
    var gone := KeysOf(idp, realm, subject);
    Idp(idp.users - gone, idp.passwords - gone, idp.subjects - {subject}, idp.realms)
  }

  function Authenticated(idp: Idp, realm: string, email: string, password: Password): Option<Subject> {
    var key := KeyOf(realm, email);
    if key in idp.users && key in idp.passwords && idp.passwords[key] == password then Some(idp.users[key]) else None
  }

  /** The new password on the subject's account; without one, an account for the e-mail address is put back. */
  function PasswordSet(idp: Idp, realm: string, subject: Subject, password: Password, email: string): Idp {
    var mine := KeysOf(idp, realm, subject);
    if mine != {} then idp.(passwords := idp.passwords + map k | k in mine :: password)
    else
      var key := KeyOf(realm, email);
      Idp(idp.users[key := subject], idp.passwords[key := password], idp.subjects + {subject}, idp.realms + {realm})
  }

  /** Both dictionaries have the same keys, and within a realm a subject has one account. */
  ghost predicate Consistent(idp: Idp) {
    && idp.users.Keys == idp.passwords.Keys
    && forall k, l | k in idp.users && l in idp.users && k.realm == l.realm && idp.users[k] == idp.users[l] :: k == l
  }

  /** A created account authenticates its password and no other, until it is deleted without a trace. */
  lemma CreateDeleteRoundTrip(idp: Idp, realm: string, email: string, password: Password, subject: Subject,
                              guess: Password)
    requires Consistent(idp) && subject !in idp.users.Values && subject !in idp.subjects
    ensures match Created(idp, realm, email, password, subject)
      case None => KeyOf(realm, email) in idp.users
      case Some(after) =>
        && Consistent(after)
        && (Authenticated(after, realm, email, guess) == if guess == password then Some(subject) else None)
        && Deleted(after, realm, subject) == idp.(realms := idp.realms + {realm})
  {
    match Created(idp, realm, email, password, subject)
    case None =>
    case Some(after) =>
      var key := KeyOf(realm, email);
      forall k | k in idp.users ensures idp.users[k] != subject {
        assert idp.users[k] in idp.users.Values;
      }
      assert KeysOf(after, realm, subject) == {key};
      assert after.users - {key} == idp.users && after.passwords - {key} == idp.passwords;
  }

  /** Setting a password makes it the only one that authenticates, to the same subject, whether the
      account was still there or had been lost; every other account stays as it was. */
  lemma SetPasswordHolds(idp: Idp, realm: string, subject: Subject, password: Password, email: string, guess: Password)
    requires Consistent(idp)
    requires KeysOf(idp, realm, subject) <= {KeyOf(realm, email)}
    ensures var after := PasswordSet(idp, realm, subject, password, email);
      && Consistent(after)
      && (Authenticated(after, realm, email, guess) == if guess == password then Some(subject) else None)
      && after.users == idp.users[KeyOf(realm, email) := subject]
      && after.passwords == idp.passwords[KeyOf(realm, email) := password]
  {
    var key, mine := KeyOf(realm, email), KeysOf(idp, realm, subject);
    if mine != {} {
      var k :| k in mine;
      assert mine == {key};
    } else {
      forall k | k in idp.users && k.realm == realm ensures idp.users[k] != subject {
        assert k !in mine;
      }
    }
  }

  class FakeKeycloakClient {
    var users: map<Key, Subject>
    var passwords: map<Key, Password>
    var subjects: set<Subject>
    var realms: set<string>

    ghost function State(): Idp
      reads this
    {
      Idp(users, passwords, subjects, realms)
    }

    constructor ()
      ensures State() == RESTARTED
    {
      users, passwords, subjects, realms := map[], map[], {}, {PLATFORM};
    }

    method CreateUser(realm: string, email: string, password: Password, subject: Subject) returns (ok: bool)
      modifies this
      ensures ok == Created(old(State()), realm, email, password, subject).Some?
      ensures State() == if ok then Created(old(State()), realm, email, password, subject).value else old(State())
    {
      var key := Key(realm, Text.Lower(email));
      if key in users {
        return false;
      }
      users := users[key := subject];
      passwords := passwords[key := password];
      subjects := subjects + {subject};
      realms := realms + {realm};
      return true;
    }

    method DeleteUser(realm: string, subject: Subject)
      modifies this
      ensures State() == Deleted(old(State()), realm, subject)
    {
      subjects := subjects - {subject};
      ghost var before := old(State());
      ghost var gone := KeysOf(before, realm, subject);
      var left := users.Keys;
      while left != {}
        invariant left <= before.users.Keys
        invariant users == before.users - (gone - left)
        invariant passwords == before.passwords - (gone - left)
        invariant subjects == before.subjects - {subject} && realms == before.realms
        decreases left
      {
        var key :| key in left;
        left := left - {key};
        if users[key] == subject && key.realm == realm {
          users := users - {key};
          passwords := passwords - {key};
        }
      }
      assert gone - left == gone;
    }

    method Authenticate(realm: string, email: string, password: Password) returns (subject: Option<Subject>)
      ensures subject == Authenticated(State(), realm, email, password)
    {
      var key := Key(realm, Text.Lower(email));
      if key !in users || key !in passwords || passwords[key] != password {
        return None;
      }
      return Some(users[key]);
    }

    method SetPassword(realm: string, subject: Subject, password: Password, email: string)
      requires Consistent(State())
      modifies this
      ensures State() == PasswordSet(old(State()), realm, subject, password, email)
    {
      var left := users.Keys;
      while left != {}
        invariant left <= users.Keys && State() == old(State())
        invariant forall k | k in users && k !in left :: k !in KeysOf(State(), realm, subject)
        decreases left
      {
        var key :| key in left;
        left := left - {key};
        if users[key] == subject && key.realm == realm {
          ghost var mine := KeysOf(State(), realm, subject);
          assert mine == {key};
          passwords := passwords[key := password];
          assert passwords == old(passwords) + map k | k in mine :: password;
          return;
        }
      }
      assert KeysOf(State(), realm, subject) == {};
      var key := Key(realm, Text.Lower(email));
      users := users[key := subject];
      passwords := passwords[key := password];
      subjects := subjects + {subject};
      realms := realms + {realm};
    }

    /** The process restarts: the dictionaries start empty again. */
    method Restart()
      modifies this
      ensures State() == RESTARTED
    {
      users, passwords, subjects, realms := map[], map[], {}, {PLATFORM};
    }
  }
}
