/** The profile form (ProfileCreation.tsx): the interest toggle, the age choices, and the submit
    that refuses a blank name and sends the trimmed one. The request's outcome is an input. */
module ProfileForm {
  import opened Basics
  import opened Text
  import opened QuizTypes

  const InterestOptions: seq<string> :=
    ["Animals", "Space", "Science", "Sports", "Art", "Music", "Nature", "Cars", "Dinosaurs", "Cooking", "Books", "Games"]

  const DefaultAge := 8

  /** The ages offered: `Array.from({ length: 10 }, (_, i) => i + 5)`. */
  function AgeOptions(): (r: seq<int>)
    ensures |r| == 10
    ensures forall i :: 0 <= i < 10 ==> r[i] == i + 5
  {
    seq(10, i => i + 5)
  }

  lemma AgeOptionsRange()
    ensures forall a :: a in AgeOptions() <==> 5 <= a <= 14
    ensures DefaultAge in AgeOptions()
  {
    assert AgeOptions()[DefaultAge - 5] == DefaultAge;
    forall a | 5 <= a <= 14
      ensures a in AgeOptions()
    {
      assert AgeOptions()[a - 5] == a;
    }
  }

  /** `s.filter(i => i !== x)`. */
  function Without(s: seq<string>, x: string): (r: seq<string>)
    ensures multiset(r) == multiset(s)[x := 0]
    ensures |r| <= |s|
  {
    if s == [] then []
    else
      assert s == [s[0]] + s[1..];
      if s[0] == x then Without(s[1..], x)
      else [s[0]] + Without(s[1..], x)
  }

  /** Filtering a concatenation filters each part, so the kept elements stay in their order. */
  lemma {:induction false} WithoutAppend(a: seq<string>, b: seq<string>, x: string)
    ensures Without(a + b, x) == Without(a, x) + Without(b, x)
  {
    if a != [] {
      assert (a + b)[0] == a[0] && (a + b)[1..] == a[1..] + b;
      WithoutAppend(a[1..], b, x);
    } else {
      assert a + b == b;
    }
  }

  /** Filtering out something absent changes nothing. */
  lemma {:induction false} WithoutAbsent(s: seq<string>, x: string)
    requires x !in s
    ensures Without(s, x) == s
  {
    if s != [] {
      assert x !in s[1..];
      WithoutAbsent(s[1..], x);
      assert s == [s[0]] + s[1..];
    }
  }

  /** `handleInterestToggle`: a selected interest is removed (every copy), another is appended. */
  function Toggled(s: seq<string>, x: string): seq<string> {
    if x in s then Without(s, x) else s + [x]
  }

  predicate Distinct(s: seq<string>) {
    forall i, j :: 0 <= i < j < |s| ==> s[i] != s[j]
  }

  /** A toggle flips whether the interest is selected and leaves every other one as it was, with
      as many copies. */
  lemma ToggledFlips(s: seq<string>, x: string)
    ensures x in Toggled(s, x) <==> x !in s
    ensures forall y :: y != x ==> multiset(Toggled(s, x))[y] == multiset(s)[y]
  {
    if x in s {
      assert multiset(Toggled(s, x))[x] == 0;
    } else {
      assert Toggled(s, x)[|s|] == x;
      assert multiset(Toggled(s, x)) == multiset(s) + multiset{x};
    }
  }

  /** The other interests keep their relative order: leaving the toggled one aside, the list is
      the same before and after. */
  lemma ToggledKeepsOthersInOrder(s: seq<string>, x: string)
    ensures Without(Toggled(s, x), x) == Without(s, x)
  {
    if x in s {
      assert multiset(Without(s, x))[x] == 0;
      WithoutAbsent(Without(s, x), x);
    } else {
      WithoutAppend(s, [x], x);
      assert Without([x], x) == [];
    }
  }

  /** Distinct elements stay distinct: toggling never selects an interest twice. */
  lemma {:induction false} WithoutKeepsDistinct(s: seq<string>, x: string)
    requires Distinct(s)
    ensures Distinct(Without(s, x))
  {
    if s != [] {
      assert Distinct(s[1..]);
      WithoutKeepsDistinct(s[1..], x);
      if s[0] != x {
        var r := Without(s, x);
        var rest := Without(s[1..], x);
        assert s[0] !in s[1..];
        assert s[0] !in multiset(rest);
        forall i, j | 0 <= i < j < |r|
          ensures r[i] != r[j]
        {
          if i == 0 {
            assert r[j] == rest[j - 1] && rest[j - 1] in multiset(rest);
          }
        }
      }
    }
  }

  lemma ToggledKeepsDistinct(s: seq<string>, x: string)
    requires Distinct(s)
    ensures Distinct(Toggled(s, x))
  {
    if x in s {
      WithoutKeepsDistinct(s, x);
    }
  }

  /** Toggling an unselected interest twice restores the list; toggling a selected one twice moves
      it to the end (once). */
  lemma ToggledTwice(s: seq<string>, x: string)
    ensures x !in s ==> Toggled(Toggled(s, x), x) == s
    ensures x in s ==> Toggled(Toggled(s, x), x) == Without(s, x) + [x]
  {
    if x !in s {
      var t := s + [x];
      assert x in t by { assert t[|s|] == x; }
      WithoutAppend(s, [x], x);
      WithoutAbsent(s, x);
      assert Without([x], x) == [];
    } else {
      assert multiset(Without(s, x))[x] == 0;
    }
  }

  /** The body POSTed to /api/profile. */
  datatype ProfileBody = ProfileBody(name: string, age: int, interests: seq<string>)

  /** How the profile request ends. */
  datatype CreateOutcome = Unreachable | Refused | Created(profile: Profile)

  const SorryMessage := "I'm sorry, there was a problem creating your profile. Please try again."

  class Form {
    var name: string
    var age: int
    var selectedInterests: seq<string>
    var isSubmitting: bool
    /** The texts handed to the voice manager, in order. */
    var spoken: seq<string>

    constructor ()
      ensures name == "" && age == DefaultAge && selectedInterests == [] && !isSubmitting && spoken == []
    {
      name, age, selectedInterests, isSubmitting, spoken := "", DefaultAge, [], false, [];
    }

    method SetName(value: string)
      modifies this`name
      ensures name == value
    {
      name := value;
    }

    /** A choice in the age menu. */
    method SetAge(value: int)
      requires value in AgeOptions()
      modifies this`age
      ensures age == value
    {
      age := value;
    }

    method ToggleInterest(interest: string)
      modifies this`selectedInterests
      ensures selectedInterests == Toggled(old(selectedInterests), interest)
    {
      if interest in selectedInterests {
        selectedInterests := Without(selectedInterests, interest);
      } else {
        selectedInterests := selectedInterests + [interest];
      }
    }

    /** The start of `handleSubmit`: a blank name sends nothing; otherwise the submission starts and
        the body carries the trimmed name, the age and the interests. */
    method BeginSubmit() returns (body: Option<ProfileBody>)
      modifies this`isSubmitting
      ensures IsBlank(name) ==> body == None && isSubmitting == old(isSubmitting)
      ensures !IsBlank(name) ==> isSubmitting && body == Some(ProfileBody(Trim(name), age, selectedInterests))
      ensures body.Some? ==> body.value.name != [] && !IsSpace(body.value.name[0])
    {
      TrimEmptyIffBlank(name);
      var trimmed := Trim(name);
      if trimmed == [] {
        return None;
      }
      isSubmitting := true;
      body := Some(ProfileBody(trimmed, age, selectedInterests));
    }

    /** The rest of `handleSubmit`: a created profile is handed to `onProfileCreated`; a refusal or
        an unreachable server is apologised for. */
    method FinishSubmit(outcome: CreateOutcome) returns (created: Option<Profile>)
      modifies this`isSubmitting, this`spoken
      ensures !isSubmitting
      ensures created == if outcome.Created? then Some(outcome.profile) else None
      ensures spoken == old(spoken) + (if outcome.Created? then [] else [SorryMessage])
    {
      created := None;
      if outcome.Created? {
        created := Some(outcome.profile);
      } else {
        spoken := spoken + [SorryMessage];
      }
      isSubmitting := false;
    }
  }
}
