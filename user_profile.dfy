/** The per-user registration record that the turn router and the form share. */
module UserProfiles {
  import opened Wrappers

  /** A snapshot of a `UserProfile` object. A .NET `string` property that was
      never assigned is `null`, written `None` here. */
  datatype ProfileValue = ProfileValue(
    language: Option<string>,
    name: Option<string>,
    city: Option<string>,
    age: int,
    isRegistering: bool)

  /** What `new UserProfile()` holds: every field at its .NET default. */
  const FreshProfile := ProfileValue(None, None, None, 0, false)

  /** How string interpolation renders a possibly-null string: `null` as "". */
  function Display(s: Option<string>): string
  {
    s.GetOr("")
  }

  /** The mutable profile; the form's steps assign its fields in place. */
  class UserProfile {
    var language: Option<string>
    var name: Option<string>
    var city: Option<string>
    var age: int
    var isRegistering: bool

    constructor ()
      ensures Value() == FreshProfile
    {
      language, name, city := None, None, None;
      age := 0;
      isRegistering := false;
    }

    /** The five fields, and nothing else, make up the profile. */
    function Value(): ProfileValue
      reads this
    {
      ProfileValue(language, name, city, age, isRegistering)
    }
  }

  /** A profile created on first use is not registering, has age 0 (not the
      "age not given" marker -1) and no name, city or language. */
  lemma FreshProfileDefaults()
    ensures !FreshProfile.isRegistering
    ensures FreshProfile.age == 0 && FreshProfile.age != -1
    ensures FreshProfile.name == None && FreshProfile.city == None && FreshProfile.language == None
  {
  }
}
