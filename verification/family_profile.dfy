/**
 * The family profile page: the BMI guard and banding shown on each member
 * card, the comma-separated tag parser of the member form, and the member
 * list the page keeps (save by edit-in-place or prepend, delete by id,
 * clear, load sample data).
 */
module FamilyProfile {
  import opened Wrappers
  import opened Strings

  // ---------------------------------------------------------------- BMI

  /** JavaScript truthiness of an optional number: present and not zero. */
  predicate NonZero(x: Option<real>)
  {
    x.Some? && x.value != 0.0
  }

  /**
   * calcBMI without the final rounding to one decimal: absent when the
   * weight or the height is missing or zero, otherwise the weight divided
   * by the square of the height in metres.
   */
  function CalcBmi(weightKg: Option<real>, heightCm: Option<real>): (r: Option<real>)
    ensures r.None? <==> !NonZero(weightKg) || !NonZero(heightCm)
    ensures r.Some? ==> r.value * (heightCm.value / 100.0) * (heightCm.value / 100.0) == weightKg.value
  {
    if !NonZero(weightKg) || !NonZero(heightCm) then None
    else
      var h := heightCm.value / 100.0;
      Some(weightKg.value / (h * h))
  }

  /** The four BMI bands, with the label and colour tag the card shows. */
  datatype BmiBand = Underweight | Normal | Overweight | Obesity
  {
    function Label(): string
    {
      match this
      case Underweight => "Underweight"
      case Normal => "Normal"
      case Overweight => "Overweight"
      case Obesity => "Obesity"
    }

    function Color(): string
    {
      match this
      case Underweight => "blue"
      case Normal => "green"
      case Overweight => "orange"
      case Obesity => "red"
    }

    /** Position of the band on the BMI scale, lowest first. */
    function Rank(): nat
    {
      match this
      case Underweight => 0
      case Normal => 1
      case Overweight => 2
      case Obesity => 3
    }
  }

  /**
   * bmiCategory: no band (the page shows the empty string) for an absent
   * BMI; otherwise exactly one of the four bands, chosen by the thresholds
   * 18.5, 25 and 30, each band closed below and open above.
   */
  function BmiCategory(bmi: Option<real>): (r: Option<BmiBand>)
    ensures r.None? <==> bmi.None?
    ensures bmi.Some? ==> (r == Some(Underweight) <==> bmi.value < 18.5)
    ensures bmi.Some? ==> (r == Some(Normal) <==> 18.5 <= bmi.value < 25.0)
    ensures bmi.Some? ==> (r == Some(Overweight) <==> 25.0 <= bmi.value < 30.0)
    ensures bmi.Some? ==> (r == Some(Obesity) <==> 30.0 <= bmi.value)
  {
    if bmi.None? then None
    else if bmi.value < 18.5 then Some(Underweight)
    else if bmi.value < 25.0 then Some(Normal)
    else if bmi.value < 30.0 then Some(Overweight)
    else Some(Obesity)
  }

  /** The text the card shows for a category: the empty string when there is none. */
  function CategoryText(c: Option<BmiBand>): (t: string)
    ensures t == "" <==> c.None?
  {
    if c.None? then "" else c.value.Label()
  }

  /** A higher BMI never falls in a lower band. */
  lemma BmiCategoryMonotonic(b1: real, b2: real)
    requires b1 <= b2
    ensures BmiCategory(Some(b1)).value.Rank() <= BmiCategory(Some(b2)).value.Rank()
  {
  }

  // ---------------------------------------------------------------- tags

  /** A tag as the parser produces it: non-empty, trimmed, without a comma. */
  predicate CleanTag(t: string)
  {
    t != [] && IsTrimmed(t) && ',' !in t
  }

  /** What one comma-separated piece contributes: its trimmed text, unless that is empty. */
  function TagOf(piece: string): (r: seq<string>)
    ensures |r| <= 1
    ensures forall i :: 0 <= i < |r| ==> r[i] != [] && IsTrimmed(r[i])
  {
    var t := Trim(piece);
    if t == [] then [] else [t]
  }

  /** `pieces.map(t => t.trim()).filter(t => t.length)`. */
  function TrimmedNonEmpty(pieces: seq<string>): (r: seq<string>)
    ensures |r| <= |pieces|
    ensures forall i :: 0 <= i < |r| ==> r[i] != [] && IsTrimmed(r[i])
  {
    if pieces == [] then [] else TagOf(pieces[0]) + TrimmedNonEmpty(pieces[1..])
  }

  predicate CommaFree(ps: seq<string>)
  {
    forall j :: 0 <= j < |ps| ==> ',' !in ps[j]
  }

  /** Trimming and dropping empty pieces brings in no comma. */
  lemma {:induction false} TrimmedNonEmptyCommaFree(pieces: seq<string>)
    requires CommaFree(pieces)
    ensures CommaFree(TrimmedNonEmpty(pieces))
  {
    if pieces != [] {
      TrimKeepsOut(pieces[0], ',');
      var h := TagOf(pieces[0]);
      assert CommaFree(h);
      assert CommaFree(pieces[1..]) by {
        forall j | 0 <= j < |pieces| - 1 ensures ',' !in pieces[1..][j] {
          assert pieces[1..][j] == pieces[j + 1];
        }
      }
      TrimmedNonEmptyCommaFree(pieces[1..]);
      var t := TrimmedNonEmpty(pieces[1..]);
      forall j | 0 <= j < |h + t| ensures ',' !in (h + t)[j] {
        if j < |h| { assert (h + t)[j] == h[j]; } else { assert (h + t)[j] == t[j - |h|]; }
      }
    }
  }

  /** parseTags applied to a present, non-empty text. */
  function ParseTagsOf(s: string): (r: seq<string>)
    ensures forall i :: 0 <= i < |r| ==> CleanTag(r[i])
  {
    TrimmedNonEmptyCommaFree(Split(s, ','));
    TrimmedNonEmpty(Split(s, ','))
  }

  /** parseTags: nothing for an absent or empty text, otherwise the trimmed non-empty comma-separated pieces. */
  function ParseTags(raw: Option<string>): (r: seq<string>)
    ensures raw.None? || raw.value == "" ==> r == []
    ensures forall i :: 0 <= i < |r| ==> CleanTag(r[i])
  {
    if raw.None? || raw.value == "" then [] else ParseTagsOf(raw.value)
  }

  lemma {:induction false} TrimmedNonEmptyConcat(a: seq<string>, b: seq<string>)
    ensures TrimmedNonEmpty(a + b) == TrimmedNonEmpty(a) + TrimmedNonEmpty(b)
  {
    if a == [] {
      assert a + b == b;
    } else {
      assert (a + b)[0] == a[0];
      assert (a + b)[1..] == a[1..] + b;
      TrimmedNonEmptyConcat(a[1..], b);
    }
  }

  /** Tags keep the order of the text: the tags of `a,b` are those of `a` followed by those of `b`. */
  lemma ParseTagsConcat(a: string, b: string)
    ensures ParseTagsOf(a + "," + b) == ParseTagsOf(a) + ParseTagsOf(b)
  {
    SplitConcat(a, b, ',');
    TrimmedNonEmptyConcat(Split(a, ','), Split(b, ','));
  }

  /** A text without a comma yields its trimmed self, or nothing when it is blank. */
  lemma ParseTagsPiece(s: string)
    requires ',' !in s
    ensures ParseTagsOf(s) == if IsBlank(s) then [] else [Trim(s)]
  {
    SplitOfPiece(s, ',');
  }

  /** Whitespace in front of the text changes no tag. */
  lemma ParseTagsSpacePrefix(c: char, s: string)
    requires IsSpace(c) && c != ','
    ensures ParseTagsOf([c] + s) == ParseTagsOf(s)
  {
    var ps := Split(s, ',');
    var qs := Split([c] + s, ',');
    if s == [] {
      assert ([c] + s)[1..] == [];
      assert Split([], ',') == [""];
      assert [c] + s == [c];
      assert qs == [[c] + ""] + [""][1..];
      assert qs == [[c]];
      TrimSpacePrefix(c, []);
    } else {
      assert ([c] + s)[1..] == s;
      assert qs == [[c] + ps[0]] + ps[1..];
      TrimSpacePrefix(c, ps[0]);
      assert qs[1..] == ps[1..];
    }
  }

  /**
   * The edit form shows a member's tags joined with ", "; saving parses them
   * back: for clean tags the round trip gives the same tags.
   */
  lemma {:induction false} ParseTagsJoin(tags: seq<string>)
    requires forall i :: 0 <= i < |tags| ==> CleanTag(tags[i])
    ensures ParseTags(Some(Join(tags, ", "))) == tags
  {
    if tags != [] {
      ParseTagsJoinNonEmpty(tags);
    }
  }

  lemma {:induction false} ParseTagsJoinNonEmpty(tags: seq<string>)
    requires |tags| >= 1
    requires forall i :: 0 <= i < |tags| ==> CleanTag(tags[i])
    ensures Join(tags, ", ") != "" && ParseTagsOf(Join(tags, ", ")) == tags
  {
    ParseTagsCleanPiece(tags[0]);
    if |tags| > 1 {
      JoinCons(tags);
      ParseTagsJoinNonEmpty(tags[1..]);
      ParseTagsAfterComma(tags[0], Join(tags[1..], ", "));
      assert [tags[0]] + tags[1..] == tags;
    }
  }

  lemma ParseTagsCleanPiece(t: string)
    requires CleanTag(t)
    ensures ParseTagsOf(t) == [t]
  {
    assert Trim(t) == t by { assert [] + t + [] == t; TrimOfPadded([], t, []); }
    ParseTagsPiece(t);
  }

  lemma JoinCons(tags: seq<string>)
    requires |tags| > 1
    ensures Join(tags, ", ") == tags[0] + "," + (" " + Join(tags[1..], ", "))
  {
  }

  /** The tags after `t, ` are the tags of `t` followed by those of the rest. */
  lemma ParseTagsAfterComma(t: string, rest: string)
    ensures ParseTagsOf(t + "," + (" " + rest)) == ParseTagsOf(t) + ParseTagsOf(rest)
  {
    ParseTagsConcat(t, " " + rest);
    assert " " + rest == [' '] + rest;
    ParseTagsSpacePrefix(' ', rest);
  }

  // ---------------------------------------------------------------- members

  type MemberId = int

  /** The fields the member form saves. */
  datatype Profile = Profile(
    name: string,
    age: Option<real>,
    gender: string,
    activity: string,
    weightKg: Option<real>,
    heightCm: Option<real>,
    allergies: seq<string>,
    dietary: seq<string>,
    goals: seq<string>,
    status: string)

  datatype Member = Member(id: MemberId, profile: Profile)

  /** A number input of the form: empty, or the number its text denotes. */
  datatype NumberInput = Blank | Entered(value: real)

  datatype ProfileForm = ProfileForm(
    name: string,
    age: NumberInput,
    gender: string,
    activity: string,
    weightKg: NumberInput,
    heightCm: NumberInput,
    allergies: string,
    dietary: string,
    goals: string,
    status: string)

  /** The form as resetForm leaves it. */
  const EmptyForm := ProfileForm("", Blank, "male", "", Blank, Blank, "", "", "", "active")

  /**
   * The payload handleSave builds: the trimmed name, `Number(age) || null`
   * (so an empty or zero age is absent), weight and height absent only when
   * left empty, and the three tag lists parsed.
   */
  function Payload(f: ProfileForm): (p: Profile)
    ensures IsTrimmed(p.name) && (p.name == [] <==> IsBlank(f.name))
    ensures p.age.Some? <==> f.age.Entered? && f.age.value != 0.0
    ensures p.weightKg.None? <==> f.weightKg.Blank?
    ensures p.heightCm.None? <==> f.heightCm.Blank?
    ensures forall i :: 0 <= i < |p.allergies| ==> CleanTag(p.allergies[i])
    ensures forall i :: 0 <= i < |p.dietary| ==> CleanTag(p.dietary[i])
    ensures forall i :: 0 <= i < |p.goals| ==> CleanTag(p.goals[i])
  {
    Profile(
      name := Trim(f.name),
      age := if f.age.Entered? && f.age.value != 0.0 then Some(f.age.value) else None,
      gender := f.gender,
      activity := f.activity,
      weightKg := if f.weightKg.Entered? then Some(f.weightKg.value) else None,
      heightCm := if f.heightCm.Entered? then Some(f.heightCm.value) else None,
      allergies := ParseTags(Some(f.allergies)),
      dietary := ParseTags(Some(f.dietary)),
      goals := ParseTags(Some(f.goals)),
      status := f.status)
  }

  /** `value || ""` for a number field shown in the form. */
  function NumberField(x: Option<real>): NumberInput
  {
    if NonZero(x) then Entered(x.value) else Blank
  }

  /** The form the page fills in when a member is opened for editing. */
  function FormFor(p: Profile): (f: ProfileForm)
    ensures f.name == p.name && f.activity == p.activity
    ensures f.gender != "" && f.status != ""
    ensures p.gender != "" ==> f.gender == p.gender
    ensures p.status != "" ==> f.status == p.status
    ensures f.age.Blank? <==> !NonZero(p.age)
    ensures f.weightKg.Blank? <==> !NonZero(p.weightKg)
    ensures f.heightCm.Blank? <==> !NonZero(p.heightCm)
    ensures !f.age.Blank? ==> f.age.value == p.age.value
    ensures !f.weightKg.Blank? ==> f.weightKg.value == p.weightKg.value
    ensures !f.heightCm.Blank? ==> f.heightCm.value == p.heightCm.value
  {
    ProfileForm(
      name := p.name,
      age := NumberField(p.age),
      gender := if p.gender == "" then "male" else p.gender,
      activity := p.activity,
      weightKg := NumberField(p.weightKg),
      heightCm := NumberField(p.heightCm),
      allergies := Join(p.allergies, ", "),
      dietary := Join(p.dietary, ", "),
      goals := Join(p.goals, ", "),
      status := if p.status == "" then "active" else p.status)
  }

  /** A profile that the edit form shows without loss. */
  predicate Normalised(p: Profile)
  {
    && IsTrimmed(p.name)
    && p.age != Some(0.0) && p.weightKg != Some(0.0) && p.heightCm != Some(0.0)
    && p.gender != "" && p.status != ""
    && (forall i :: 0 <= i < |p.allergies| ==> CleanTag(p.allergies[i]))
    && (forall i :: 0 <= i < |p.dietary| ==> CleanTag(p.dietary[i]))
    && (forall i :: 0 <= i < |p.goals| ==> CleanTag(p.goals[i]))
  }

  /** Opening a normalised member for editing and saving it unchanged saves the same profile. */
  lemma EditFormRoundTrip(p: Profile)
    requires Normalised(p)
    ensures Payload(FormFor(p)) == p
  {
    var f := FormFor(p);
    assert Trim(p.name) == p.name by { assert [] + p.name + [] == p.name; TrimOfPadded([], p.name, []); }
    assert ParseTags(Some(f.allergies)) == p.allergies by { ParseTagsJoin(p.allergies); }
    assert ParseTags(Some(f.dietary)) == p.dietary by { ParseTagsJoin(p.dietary); }
    assert ParseTags(Some(f.goals)) == p.goals by { ParseTagsJoin(p.goals); }
  }

  /** `prev.map(m => m.id === id ? { ...m, ...payload } : m)`. */
  function EditById(ms: seq<Member>, id: MemberId, p: Profile): (r: seq<Member>)
    ensures |r| == |ms|
    ensures forall i :: 0 <= i < |ms| ==> r[i].id == ms[i].id
    ensures forall i :: 0 <= i < |ms| && ms[i].id == id ==> r[i].profile == p
    ensures forall i :: 0 <= i < |ms| && ms[i].id != id ==> r[i] == ms[i]
  {
    if ms == [] then []
    else [if ms[0].id == id then Member(id, p) else ms[0]] + EditById(ms[1..], id, p)
  }

  /** `prev.filter(m => m.id !== id)`. */
  function RemoveById(ms: seq<Member>, id: MemberId): (r: seq<Member>)
    ensures |r| <= |ms|
    ensures forall m :: m in r <==> m in ms && m.id != id
  {
    if ms == [] then []
    else (if ms[0].id == id then [] else [ms[0]]) + RemoveById(ms[1..], id)
  }

  /** Removal keeps the remaining members in their order: it works piece by piece. */
  lemma {:induction false} RemoveByIdConcat(a: seq<Member>, b: seq<Member>, id: MemberId)
    ensures RemoveById(a + b, id) == RemoveById(a, id) + RemoveById(b, id)
  {
    if a == [] {
      assert a + b == b;
    } else {
      var h := if a[0].id == id then [] else [a[0]];
      calc {
        RemoveById(a + b, id);
        { assert a + b == [a[0]] + (a[1..] + b); RemoveByIdCons(a[0], a[1..] + b, id); }
        h + RemoveById(a[1..] + b, id);
        { RemoveByIdConcat(a[1..], b, id); }
        h + (RemoveById(a[1..], id) + RemoveById(b, id));
        (h + RemoveById(a[1..], id)) + RemoveById(b, id);
        { assert a == [a[0]] + a[1..]; RemoveByIdCons(a[0], a[1..], id); }
        RemoveById(a, id) + RemoveById(b, id);
      }
    }
  }

  /** One step of the filter: the first member is kept unless it has the id. */
  lemma RemoveByIdCons(m: Member, rest: seq<Member>, id: MemberId)
    ensures RemoveById([m] + rest, id) == (if m.id == id then [] else [m]) + RemoveById(rest, id)
  {
    assert ([m] + rest)[0] == m && ([m] + rest)[1..] == rest;
  }

  /** Removing an id no member has changes nothing. */
  lemma {:induction false} RemoveByIdAbsent(ms: seq<Member>, id: MemberId)
    requires forall i :: 0 <= i < |ms| ==> ms[i].id != id
    ensures RemoveById(ms, id) == ms
  {
    if ms != [] {
      RemoveByIdAbsent(ms[1..], id);
      assert [ms[0]] + ms[1..] == ms;
    }
  }

  /** Deleting the same id twice is deleting it once. */
  lemma RemoveByIdIdempotent(ms: seq<Member>, id: MemberId)
    ensures RemoveById(RemoveById(ms, id), id) == RemoveById(ms, id)
  {
    var r := RemoveById(ms, id);
    forall i | 0 <= i < |r| ensures r[i].id != id {
      assert r[i] in r;
    }
    RemoveByIdAbsent(r, id);
  }

  /** Editing the same member twice with the same payload is editing it once. */
  lemma EditByIdIdempotent(ms: seq<Member>, id: MemberId, p: Profile)
    ensures EditById(EditById(ms, id, p), id, p) == EditById(ms, id, p)
  {
    var r := EditById(ms, id, p);
    var rr := EditById(r, id, p);
    forall i | 0 <= i < |ms| ensures rr[i] == r[i] {
      if ms[i].id == id {
        assert rr[i].id == r[i].id && rr[i].profile == r[i].profile;
      }
    }
  }

  /** The four members of SAMPLE, without their ids. */
  const SampleProfiles: seq<Profile> := [
    Profile("John Smith", Some(35.0), "male", "moderate", Some(75.0), Some(178.0),
            ["Nuts", "Shellfish"], [], ["Weight Loss", "Heart Health"], "active"),
    Profile("Sarah Smith", Some(32.0), "female", "active", Some(62.0), Some(165.0),
            ["Dairy"], ["Dairy-Free"], ["Better Digestion", "Increased Energy"], "active"),
    Profile("Emily Smith", Some(8.0), "female", "active", Some(28.0), Some(130.0),
            ["Peanuts"], [], ["Healthy Growth"], "active"),
    Profile("Michael Smith", Some(65.0), "male", "light", Some(80.0), Some(175.0),
            [], [], ["Lower Cholesterol", "Heart Health", "Diabetes Management"], "light")
  ]

  /** What handleSave reports. */
  datatype SaveOutcome = Saved | Alerted(message: string)

  /** The state of the family profile page. */
  class FamilyProfiles {
    var members: seq<Member>
    var editing: Option<Member>
    var form: ProfileForm
    var isOpen: bool

    /** The page starts with the list read from browser storage (an empty list when there is none). */
    constructor (stored: seq<Member>)
      ensures members == stored && editing == None && form == EmptyForm && !isOpen
    {
      members := stored;
      editing := None;
      form := EmptyForm;
      isOpen := false;
    }

    /** openAdd: an empty form for a new member. */
    method OpenAdd()
      modifies this
      ensures members == old(members)
      ensures editing == None && form == EmptyForm && isOpen
    {
      editing := None;
      form := EmptyForm;
      isOpen := true;
    }

    /** handleEdit: the member's fields are copied into the form and the modal opens. */
    method StartEdit(m: Member)
      modifies this
      ensures members == old(members)
      ensures editing == Some(m) && form == FormFor(m.profile) && isOpen
    {
      editing := Some(m);
      form := FormFor(m.profile);
      isOpen := true;
    }

    /** closeModal. */
    method CloseModal()
      modifies this
      ensures members == old(members)
      ensures editing == None && form == EmptyForm && !isOpen
    {
      isOpen := false;
      editing := None;
      form := EmptyForm;
    }

    /**
     * handleSave. A name that is blank once trimmed is refused with an alert
     * and nothing changes. Otherwise the member being edited gets the new
     * payload in place (same id, same position), or a new member with
     * `freshId` goes in front of the list; then the modal closes.
     */
    method Save(freshId: MemberId) returns (outcome: SaveOutcome)
      modifies this
      ensures var p := Payload(old(form));
        if p.name == [] then
          && outcome == Alerted("Please enter a name.")
          && members == old(members) && editing == old(editing) && form == old(form) && isOpen == old(isOpen)
        else
          && outcome == Saved
          && members == (if old(editing).Some? then EditById(old(members), old(editing).value.id, p)
                         else [Member(freshId, p)] + old(members))
          && editing == None && form == EmptyForm && !isOpen
    {
      var p := Payload(form);
      if p.name == [] {
        outcome := Alerted("Please enter a name.");
        return;
      }
      if editing.Some? {
        members := EditById(members, editing.value.id, p);
      } else {
        members := [Member(freshId, p)] + members;
      }
      CloseModal();
      outcome := Saved;
    }

    /** handleDelete: when confirmed, every member with the id is removed and the rest keep their order. */
    method Delete(id: MemberId, confirmed: bool)
      modifies this`members
      ensures members == if confirmed then RemoveById(old(members), id) else old(members)
    {
      if !confirmed {
        return;
      }
      members := RemoveById(members, id);
    }

    /** loadSample: the sample members replace the list, each with a new id. */
    method LoadSample(ids: seq<MemberId>)
      requires |ids| == |SampleProfiles|
      modifies this`members
      ensures |members| == |SampleProfiles|
      ensures forall i :: 0 <= i < |members| ==> members[i] == Member(ids[i], SampleProfiles[i])
    {
      members := seq(|SampleProfiles|, i requires 0 <= i < |SampleProfiles| => Member(ids[i], SampleProfiles[i]));
    }

    /** clearAll: when confirmed, the list becomes empty. */
    method ClearAll(confirmed: bool)
      modifies this`members
      ensures members == if confirmed then [] else old(members)
    {
      if !confirmed {
        return;
      }
      members := [];
    }
  }
}
