/** The shared form helpers of core/forms.py: `set_first_choice`, and the
    `validator` that gives the `name`, `phone` and date fields of a form
    their widget attributes and their `clean_name` / `clean_phone` checks.
    The two checks call `re.match` with a pattern ending in `$`; the
    patterns are modelled as data and matched by `Matches`, which follows
    Python's rules for `re.match` without flags on a `str`. */
module CoreForms {
  import opened Wrappers

  /** One `(value, label)` pair of a choice field. */
  datatype Choice = Choice(value: string, text: string)

  /** A form field with a list of choices. */
  class ChoiceField {
    var choices: seq<Choice>

    constructor (choices: seq<Choice>)
      ensures this.choices == choices
    {
      this.choices := choices;
    }

    /** `set_first_choice`: replaces the first choice with an empty value
        showing `placeholder`. On an empty list the assignment to index 0
        raises `IndexError` and the field keeps its choices. */
    method SetFirstChoice(placeholder: string) returns (raised: bool)
      modifies this
      ensures raised <==> old(choices) == []
      ensures !raised ==> choices == old(choices)[0 := Choice("", placeholder)]
      ensures raised ==> choices == old(choices)
    {
      if |choices| == 0 {
        return true;
      }
      var updated := choices;
      updated := updated[0 := Choice("", placeholder)];
      choices := updated;
      return false;
    }
  }

  /** A character set of a pattern: one character, a range of code points,
      `\s` or `\d`. */
  datatype CharClass = Single(c: char) | Range(lo: int, hi: int) | Whitespace | Digit

  /** A pattern element: a set of characters (the union of `classes`)
      repeated between `min` and `max` times (`max == None` is unbounded). */
  datatype Piece = Piece(classes: seq<CharClass>, min: nat, max: Option<nat>)

  /** `\s` on a `str`: the characters for which `str.isspace()` holds. */
  predicate IsSpace(c: char)
  {
    var n := c as int;
    (9 <= n <= 13) || (0x1C <= n <= 0x20) || n == 0x85 || n == 0xA0 || n == 0x1680
    || (0x2000 <= n <= 0x200A) || n == 0x2028 || n == 0x2029 || n == 0x202F || n == 0x205F || n == 0x3000
  }

  /** `\d` on a `str`: a character of Unicode category Nd (decimal digit),
      as of Unicode 15.0. Each range is a run of ten digits, except
      U+1D7CE..U+1D7FF, five runs of mathematical digits in a row. */
  predicate IsDecimalDigit(c: char)
  {
    var n := c as int;
    (0x0030 <= n <= 0x0039) || (0x0660 <= n <= 0x0669) || (0x06F0 <= n <= 0x06F9) || (0x07C0 <= n <= 0x07C9)
    || (0x0966 <= n <= 0x096F) || (0x09E6 <= n <= 0x09EF) || (0x0A66 <= n <= 0x0A6F) || (0x0AE6 <= n <= 0x0AEF)
    || (0x0B66 <= n <= 0x0B6F) || (0x0BE6 <= n <= 0x0BEF) || (0x0C66 <= n <= 0x0C6F) || (0x0CE6 <= n <= 0x0CEF)
    || (0x0D66 <= n <= 0x0D6F) || (0x0DE6 <= n <= 0x0DEF) || (0x0E50 <= n <= 0x0E59) || (0x0ED0 <= n <= 0x0ED9)
    || (0x0F20 <= n <= 0x0F29) || (0x1040 <= n <= 0x1049) || (0x1090 <= n <= 0x1099) || (0x17E0 <= n <= 0x17E9)
    || (0x1810 <= n <= 0x1819) || (0x1946 <= n <= 0x194F) || (0x19D0 <= n <= 0x19D9) || (0x1A80 <= n <= 0x1A89)
    || (0x1A90 <= n <= 0x1A99) || (0x1B50 <= n <= 0x1B59) || (0x1BB0 <= n <= 0x1BB9) || (0x1C40 <= n <= 0x1C49)
    || (0x1C50 <= n <= 0x1C59) || (0xA620 <= n <= 0xA629) || (0xA8D0 <= n <= 0xA8D9) || (0xA900 <= n <= 0xA909)
    || (0xA9D0 <= n <= 0xA9D9) || (0xA9F0 <= n <= 0xA9F9) || (0xAA50 <= n <= 0xAA59) || (0xABF0 <= n <= 0xABF9)
    || (0xFF10 <= n <= 0xFF19) || (0x104A0 <= n <= 0x104A9) || (0x10D30 <= n <= 0x10D39) || (0x11066 <= n <= 0x1106F)
    || (0x110F0 <= n <= 0x110F9) || (0x11136 <= n <= 0x1113F) || (0x111D0 <= n <= 0x111D9) || (0x112F0 <= n <= 0x112F9)
    || (0x11450 <= n <= 0x11459) || (0x114D0 <= n <= 0x114D9) || (0x11650 <= n <= 0x11659) || (0x116C0 <= n <= 0x116C9)
    || (0x11730 <= n <= 0x11739) || (0x118E0 <= n <= 0x118E9) || (0x11950 <= n <= 0x11959) || (0x11C50 <= n <= 0x11C59)
    || (0x11D50 <= n <= 0x11D59) || (0x11DA0 <= n <= 0x11DA9) || (0x11F50 <= n <= 0x11F59) || (0x16A60 <= n <= 0x16A69)
    || (0x16AC0 <= n <= 0x16AC9) || (0x16B50 <= n <= 0x16B59) || (0x1D7CE <= n <= 0x1D7FF) || (0x1E140 <= n <= 0x1E149)
    || (0x1E2F0 <= n <= 0x1E2F9) || (0x1E4F0 <= n <= 0x1E4F9) || (0x1E950 <= n <= 0x1E959) || (0x1FBF0 <= n <= 0x1FBF9)
  }

  predicate InClass(cls: CharClass, c: char)
  {
    match cls
    case Single(d) => c == d
    case Range(lo, hi) => lo <= c as int <= hi
    case Whitespace => IsSpace(c)
    case Digit => IsDecimalDigit(c)
  }

  predicate InPiece(p: Piece, c: char)
  {
    exists k :: 0 <= k < |p.classes| && InClass(p.classes[k], c)
  }

  predicate Allows(p: Piece, count: nat)
  {
    p.min <= count && (p.max.None? || count <= p.max.value)
  }

  /** The fewest characters the pieces can consume. */
  function MinLength(pieces: seq<Piece>): nat
  {
    if pieces == [] then 0 else pieces[0].min + MinLength(pieces[1..])
  }

  /** Whether `re.match` succeeds for the pattern `pieces` followed by `$`
      on `s`: the pieces consume a prefix of `s` and what is left is either
      nothing or a single final newline. A matched string is at least as
      long as the pieces' minimum counts together. */
  predicate Matches(pieces: seq<Piece>, s: string): (r: bool)
    ensures r ==> |s| >= MinLength(pieces)
    decreases |pieces|
  {
    if pieces == [] then s == "" || s == "\n"
    else
      exists k :: 0 <= k <= |s| && Allows(pieces[0], k)
        && (forall i :: 0 <= i < k ==> InPiece(pieces[0], s[i]))
        && Matches(pieces[1..], s[k..])
  }

  /** `^[ء-ي\s]+$` */
  const NamePattern: seq<Piece> := [Piece([Range(0x0621, 0x064A), Whitespace], 1, None)]

  /** `^09\d{8}$` */
  const PhonePattern: seq<Piece> := [Piece([Single('0')], 1, Some(1)), Piece([Single('9')], 1, Some(1)),
                                     Piece([Digit], 8, Some(8))]

  predicate IsNameChar(c: char)
  {
    (0x0621 <= c as int <= 0x064A) || IsSpace(c)
  }

  /** The one piece of the name pattern takes exactly the name characters. */
  lemma NamePieceChars()
    ensures forall c :: InPiece(NamePattern[0], c) <==> IsNameChar(c)
  {
    var p := NamePattern[0];
    forall c
      ensures InPiece(p, c) <==> IsNameChar(c)
    {
      assert InClass(p.classes[0], c) <==> 0x0621 <= c as int <= 0x064A;
      assert InClass(p.classes[1], c) <==> IsSpace(c);
    }
  }

  lemma NamePatternComplete(s: string)
    requires |s| >= 1 && forall i :: 0 <= i < |s| ==> IsNameChar(s[i])
    ensures Matches(NamePattern, s)
  {
    NamePieceChars();
    assert NamePattern[1..] == [];
    assert s[|s|..] == "";
    assert Allows(NamePattern[0], |s|);
  }

  lemma NamePatternSound(s: string)
    requires Matches(NamePattern, s)
    ensures |s| >= 1 && forall i :: 0 <= i < |s| ==> IsNameChar(s[i])
  {
    NamePieceChars();
    var p := NamePattern[0];
    assert NamePattern[1..] == [];
    var k :| 0 <= k <= |s| && Allows(p, k) && (forall i :: 0 <= i < k ==> InPiece(p, s[i])) && Matches(NamePattern[1..], s[k..]);
    if k < |s| {
      assert s[k..] == "\n";
      assert s[k] == '\n';
    }
  }

  /** The name pattern accepts exactly the non-empty strings of Arabic
      letters (U+0621..U+064A) and whitespace. */
  lemma NamePatternMeaning(s: string)
    ensures Matches(NamePattern, s) <==> |s| >= 1 && forall i :: 0 <= i < |s| ==> IsNameChar(s[i])
  {
    if Matches(NamePattern, s) {
      NamePatternSound(s);
    }
    if |s| >= 1 && forall i :: 0 <= i < |s| ==> IsNameChar(s[i]) {
      NamePatternComplete(s);
    }
  }

  predicate IsPhoneShape(s: string)
  {
    (|s| == 10 || (|s| == 11 && s[10] == '\n')) && s[0] == '0' && s[1] == '9'
    && forall i :: 2 <= i < 10 ==> IsDecimalDigit(s[i])
  }

  /** The three pieces of the phone pattern, described field by field. */
  predicate PhonePieces(p0: Piece, p1: Piece, p2: Piece)
  {
    p0 == Piece([Single('0')], 1, Some(1)) && p1 == Piece([Single('9')], 1, Some(1)) && p2 == Piece([Digit], 8, Some(8))
  }

  lemma PhonePieceChars(p0: Piece, p1: Piece, p2: Piece)
    requires PhonePieces(p0, p1, p2)
    ensures forall c :: InPiece(p0, c) <==> c == '0'
    ensures forall c :: InPiece(p1, c) <==> c == '9'
    ensures forall c :: InPiece(p2, c) <==> IsDecimalDigit(c)
  {
    forall c ensures InPiece(p0, c) <==> c == '0' {
      assert InClass(p0.classes[0], c) <==> c == '0';
    }
    forall c ensures InPiece(p1, c) <==> c == '9' {
      assert InClass(p1.classes[0], c) <==> c == '9';
    }
    forall c ensures InPiece(p2, c) <==> IsDecimalDigit(c) {
      assert InClass(p2.classes[0], c) <==> IsDecimalDigit(c);
    }
  }

  /** The length of the prefix the first piece consumes in a match. */
  lemma FirstPieceMatch(pieces: seq<Piece>, s: string) returns (k: nat)
    requires pieces != [] && Matches(pieces, s)
    ensures k <= |s| && Allows(pieces[0], k)
    ensures forall i :: 0 <= i < k ==> InPiece(pieces[0], s[i])
    ensures Matches(pieces[1..], s[k..])
  {
    k :| 0 <= k <= |s| && Allows(pieces[0], k)
         && (forall i :: 0 <= i < k ==> InPiece(pieces[0], s[i])) && Matches(pieces[1..], s[k..]);
  }

  lemma PhonePatternSound(p0: Piece, p1: Piece, p2: Piece, s: string)
    requires PhonePieces(p0, p1, p2) && Matches([p0, p1, p2], s)
    ensures IsPhoneShape(s)
  {
    PhonePieceChars(p0, p1, p2);
    assert [p0, p1, p2][1..] == [p1, p2] && [p1, p2][1..] == [p2] && [p2][1..] == [];
    var k0 := FirstPieceMatch([p0, p1, p2], s);
    var s1 := s[k0..];
    var k1 := FirstPieceMatch([p1, p2], s1);
    var s2 := s1[k1..];
    var k2 := FirstPieceMatch([p2], s2);
    assert k0 == 1 && k1 == 1 && k2 == 8;
    assert Matches([], s2[8..]);
    assert InPiece(p0, s[0]) && InPiece(p1, s1[0]);
    forall i | 2 <= i < 10 ensures IsDecimalDigit(s[i]) {
      assert s[i] == s2[i - 2];
      assert InPiece(p2, s2[i - 2]);
    }
    assert s2[8..] == s[10..];
  }

  lemma PhonePatternComplete(p0: Piece, p1: Piece, p2: Piece, s: string)
    requires PhonePieces(p0, p1, p2) && IsPhoneShape(s)
    ensures Matches([p0, p1, p2], s)
  {
    PhonePieceChars(p0, p1, p2);
    assert [p0, p1, p2][1..] == [p1, p2] && [p1, p2][1..] == [p2] && [p2][1..] == [];
    var s1 := s[1..];
    var s2 := s1[1..];
    assert s2[8..] == s[10..];
    assert Matches([], s2[8..]);
    forall i | 0 <= i < 8 ensures InPiece(p2, s2[i]) {
      assert s2[i] == s[i + 2];
    }
    assert Allows(p2, 8);
    assert Matches([p2], s2);
    assert InPiece(p1, s1[0]) && Allows(p1, 1) && s1[1..] == s2;
    assert Matches([p1, p2], s1);
    assert InPiece(p0, s[0]) && Allows(p0, 1);
  }

  /** The phone pattern accepts exactly "09" followed by eight decimal
      digits, optionally followed by one newline. */
  lemma PhonePatternMeaning(s: string)
    ensures Matches(PhonePattern, s) <==> IsPhoneShape(s)
  {
    var p0, p1, p2 := PhonePattern[0], PhonePattern[1], PhonePattern[2];
    assert PhonePattern == [p0, p1, p2];
    if Matches(PhonePattern, s) {
      PhonePatternSound(p0, p1, p2, s);
    }
    if IsPhoneShape(s) {
      PhonePatternComplete(p0, p1, p2, s);
    }
  }

  /** `clean_name`: a name the pattern rejects raises `ValidationError`
      with this message; an accepted name is returned unchanged. */
  const NameError := "الرجاء إستخدام الحروف العربية."

  /** `clean_phone`'s message. */
  const PhoneError := "يرجى إدخال رقم هاتف صحيح ابتداء بـ09."

  function CleanName(name: string): (r: Result<string, string>)
    ensures r.Success? <==> |name| >= 1 && forall i :: 0 <= i < |name| ==> IsNameChar(name[i])
    ensures r.Success? ==> r.value == name
    ensures r.Failure? ==> r.error == NameError
  {
    NamePatternMeaning(name);
    if Matches(NamePattern, name) then Success(name) else Failure(NameError)
  }

  function CleanPhone(phone: string): (r: Result<string, string>)
    ensures r.Success? <==> IsPhoneShape(phone)
    ensures r.Success? ==> r.value == phone
    ensures r.Failure? ==> r.error == PhoneError
  {
    PhonePatternMeaning(phone);
    if Matches(PhonePattern, phone) then Success(phone) else Failure(PhoneError)
  }

  predicate OccursAt(s: string, sub: string, i: nat)
  {
    i + |sub| <= |s| && s[i..i + |sub|] == sub
  }

  /** Python's `sub in s`. */
  predicate Contains(s: string, sub: string)
    decreases |s|
  {
    (|sub| <= |s| && s[..|sub|] == sub) || (s != [] && Contains(s[1..], sub))
  }

  lemma {:induction false} ContainsMeaning(s: string, sub: string)
    ensures Contains(s, sub) <==> exists i: nat :: OccursAt(s, sub, i)
    decreases |s|
  {
    if |sub| <= |s| && s[..|sub|] == sub {
      assert OccursAt(s, sub, 0);
    }
    if s != [] {
      ContainsMeaning(s[1..], sub);
      if exists i: nat :: OccursAt(s[1..], sub, i) {
        var i: nat :| OccursAt(s[1..], sub, i);
        assert s[i + 1..i + 1 + |sub|] == s[1..][i..i + |sub|];
        assert OccursAt(s, sub, i + 1);
      }
      if exists i: nat :: OccursAt(s, sub, i) {
        var i: nat :| OccursAt(s, sub, i);
        if i > 0 {
          assert s[1..][i - 1..i - 1 + |sub|] == s[i..i + |sub|];
          assert OccursAt(s[1..], sub, i - 1);
        }
      }
    }
  }

  /** Which branch of `validator`'s if/elif chain a field takes. */
  datatype Treatment = NameRule | PhoneRule | DateRule | NoRule

  function TreatmentOf(fieldName: string): (t: Treatment)
    ensures t == NameRule <==> fieldName == "name"
    ensures t == PhoneRule <==> fieldName == "phone"
    ensures t == DateRule <==> fieldName != "name" && fieldName != "phone" && Contains(fieldName, "date")
  {
    if fieldName == "name" then NameRule
    else if fieldName == "phone" then PhoneRule
    else if Contains(fieldName, "date") then DateRule
    else NoRule
  }

  /** The `clean_<field>` hooks `validator` installs on a form. */
  datatype Hook = CleanNameHook | CleanPhoneHook

  /** The source text of the patterns, as put in the widgets' `pattern` attribute. */
  const NamePatternText := "^[\\u0621-\\u064A\\s]+$"
  const DigitsPatternText := "^\\d+$"

  /** A form's widget attributes after one field's treatment. */
  function Treated(attrs: map<string, string>, t: Treatment): map<string, string>
  {
    match t
    case NameRule => attrs["pattern" := NamePatternText]
    case PhoneRule => attrs["pattern" := DigitsPatternText]
    case DateRule => attrs["id" := "monthSelector"]
    case NoRule => attrs
  }

  /** The hooks installed for the fields `names`. */
  function HooksFor(names: seq<string>): set<Hook>
  {
    (if "name" in names then {CleanNameHook} else {}) + (if "phone" in names then {CleanPhoneHook} else {})
  }

  lemma HooksForNext(names: seq<string>, i: nat)
    requires i < |names|
    ensures HooksFor(names[..i + 1]) == HooksFor(names[..i]) + HooksFor([names[i]])
  {
    assert names[..i + 1] == names[..i] + [names[i]];
  }

  /** The widget attributes after `validator`'s loop has treated the fields
      `names` in order. */
  function TreatAll(attrs: map<string, map<string, string>>, names: seq<string>): (r: map<string, map<string, string>>)
    requires forall f :: f in names ==> f in attrs
    ensures r.Keys == attrs.Keys
  {
    if names == [] then attrs
    else
      var last := names[|names| - 1];
      var prev := TreatAll(attrs, names[..|names| - 1]);
      prev[last := Treated(prev[last], TreatmentOf(last))]
  }

  /** Treating distinct fields gives each of them the treatment its name
      selects, applied to its original attributes, and leaves every other
      widget as it was. */
  lemma {:induction false} TreatAllMeaning(attrs: map<string, map<string, string>>, names: seq<string>)
    requires forall f :: f in names ==> f in attrs
    requires forall j, k :: 0 <= j < k < |names| ==> names[j] != names[k]
    ensures forall f :: f in attrs ==>
      TreatAll(attrs, names)[f] == if f in names then Treated(attrs[f], TreatmentOf(f)) else attrs[f]
    decreases |names|
  {
    if names != [] {
      var init, last := names[..|names| - 1], names[|names| - 1];
      TreatAllMeaning(attrs, init);
      assert last !in init by {
        forall j | 0 <= j < |init|
          ensures init[j] != last
        {
          assert names[j] != names[|names| - 1];
        }
      }
      assert forall f :: f in names <==> f in init || f == last by {
        assert names == init + [last];
      }
    }
  }

  /** The fields of a form (their names, in declaration order), the
      attributes of each field's widget and the clean hooks installed. */
  class Form {
    const fieldNames: seq<string>
    var widgetAttrs: map<string, map<string, string>>
    var hooks: set<Hook>

    ghost predicate Valid()
      reads this
    {
      (forall j, k :: 0 <= j < k < |fieldNames| ==> fieldNames[j] != fieldNames[k])
      && forall f :: f in fieldNames ==> f in widgetAttrs
    }

    constructor (fieldNames: seq<string>)
      requires forall j, k :: 0 <= j < k < |fieldNames| ==> fieldNames[j] != fieldNames[k]
      ensures Valid() && this.fieldNames == fieldNames && hooks == {}
      ensures widgetAttrs == map f | f in fieldNames :: map[]
    {
      this.fieldNames := fieldNames;
      widgetAttrs := map f | f in fieldNames :: map[];
      hooks := {};
    }

    /** One pass of `validator`'s loop, on the field `name`. */
    method TreatField(name: string)
      requires name in widgetAttrs
      modifies this
      ensures widgetAttrs == old(widgetAttrs)[name := Treated(old(widgetAttrs)[name], TreatmentOf(name))]
      ensures hooks == old(hooks) + HooksFor([name])
    {
      var attrs := widgetAttrs[name];
      if name == "name" {
        widgetAttrs := widgetAttrs[name := attrs["pattern" := NamePatternText]];
        hooks := hooks + {CleanNameHook};
      } else if name == "phone" {
        widgetAttrs := widgetAttrs[name := attrs["pattern" := DigitsPatternText]];
        hooks := hooks + {CleanPhoneHook};
      } else if Contains(name, "date") {
        widgetAttrs := widgetAttrs[name := attrs["id" := "monthSelector"]];
      }
    }

    /** The loop of `validator`, over the fields in declaration order. */
    method TreatFields()
      requires Valid()
      modifies this
      ensures widgetAttrs == TreatAll(old(widgetAttrs), fieldNames)
      ensures hooks == old(hooks) + HooksFor(fieldNames)
    {
      for i := 0 to |fieldNames|
        invariant widgetAttrs == TreatAll(old(widgetAttrs), fieldNames[..i])
        invariant hooks == old(hooks) + HooksFor(fieldNames[..i])
      {
        var name := fieldNames[i];
        assert fieldNames[..i + 1][..i] == fieldNames[..i];
        TreatField(name);
        HooksForNext(fieldNames, i);
      }
      assert fieldNames[..|fieldNames|] == fieldNames;
    }

    /** `validator(form)`: every field gets the treatment its name selects
        and no other; fields that select none are untouched. */
    method Validate()
      requires Valid()
      modifies this
      ensures Valid()
      ensures widgetAttrs.Keys == old(widgetAttrs).Keys
      ensures forall f :: f in fieldNames ==> widgetAttrs[f] == Treated(old(widgetAttrs)[f], TreatmentOf(f))
      ensures forall f :: f in widgetAttrs && f !in fieldNames ==> widgetAttrs[f] == old(widgetAttrs)[f]
      ensures hooks == old(hooks) + (if "name" in fieldNames then {CleanNameHook} else {})
                                  + (if "phone" in fieldNames then {CleanPhoneHook} else {})
    {
      TreatFields();
      TreatAllMeaning(old(widgetAttrs), fieldNames);
    }
  }
}
