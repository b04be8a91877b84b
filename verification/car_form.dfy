/**
 * `src/components/CarForm.tsx`: the make normaliser, the leading-zero stripper applied to
 * the numeric inputs, the form's field state and the submit guard that builds the payload.
 */
module CarForm {
  import opened Records
  import opened Text

  // ------------------------------------------------------------ whitespace

  /** No whitespace at either end. */
  predicate Trimmed(s: string)
  {
    s == [] || (!IsSpace(s[0]) && !IsSpace(s[|s| - 1]))
  }

  /** Every whitespace character is a single space with no whitespace right after it. */
  predicate Collapsed(s: string)
  {
    forall i :: 0 <= i < |s| && IsSpace(s[i]) ==> s[i] == ' ' && (i + 1 < |s| ==> !IsSpace(s[i + 1]))
  }

  /** Drops the leading whitespace. */
  function TrimStart(s: string): (r: string)
    ensures |r| <= |s| && r == s[|s| - |r|..]
    ensures forall i :: 0 <= i < |s| - |r| ==> IsSpace(s[i])
    ensures r != [] ==> !IsSpace(r[0])
  {
    if s != [] && IsSpace(s[0]) then TrimStart(s[1..]) else s
  }

  /** Drops the trailing whitespace. */
  function TrimEnd(s: string): (r: string)
    ensures |r| <= |s| && r == s[..|r|]
    ensures forall i :: |r| <= i < |s| ==> IsSpace(s[i])
    ensures r != [] ==> !IsSpace(r[|r| - 1])
  {
    if s != [] && IsSpace(s[|s| - 1]) then TrimEnd(s[..|s| - 1]) else s
  }

  /** `trim()` */
  function Trim(s: string): (r: string)
    ensures Trimmed(r)
    ensures forall c :: c in r ==> c in s
  {
    var t := TrimEnd(s);
    var r := TrimStart(t);
    assert r != [] ==> r[|r| - 1] == t[|t| - 1];
    r
  }

  /** Trimming text without whitespace at its ends changes nothing. */
  lemma TrimTrimmed(s: string)
    requires Trimmed(s)
    ensures Trim(s) == s
  {
  }

  /** `replace(/\s+/g, " ")`: each run of whitespace becomes a single space. */
  function Collapse(s: string): (r: string)
    ensures s != [] ==> r != [] && IsSpace(r[0]) == IsSpace(s[0])
    ensures s != [] && !IsSpace(s[0]) ==> r[0] == s[0]
    decreases |s|
  {
    if s == [] then []
    else if IsSpace(s[0]) then [' '] + Collapse(TrimStart(s[1..]))
    else [s[0]] + Collapse(s[1..])
  }

  /** Collapsing leaves no whitespace other than single spaces. */
  lemma {:induction false} CollapseIsCollapsed(s: string)
    ensures Collapsed(Collapse(s))
    decreases |s|
  {
    if s != [] {
      var t := if IsSpace(s[0]) then TrimStart(s[1..]) else s[1..];
      CollapseIsCollapsed(t);
    }
  }

  /** Collapsing keeps a last character that is not whitespace. */
  lemma {:induction false} CollapseKeepsLast(s: string)
    ensures s != [] && !IsSpace(s[|s| - 1]) ==> Collapse(s) != [] && Collapse(s)[|Collapse(s)| - 1] == s[|s| - 1]
    decreases |s|
  {
    if |s| > 1 && !IsSpace(s[|s| - 1]) {
      if IsSpace(s[0]) {
        var t := TrimStart(s[1..]);
        assert t != [] && t[|t| - 1] == s[|s| - 1];
        CollapseKeepsLast(t);
      } else {
        CollapseKeepsLast(s[1..]);
      }
    }
  }

  /** Collapsing text whose whitespace is already single spaces changes nothing. */
  lemma {:induction false} CollapseCollapsed(s: string)
    requires Collapsed(s)
    ensures Collapse(s) == s
    decreases |s|
  {
    if s != [] {
      assert Collapsed(s[1..]);
      CollapseCollapsed(s[1..]);
      if IsSpace(s[0]) {
        assert TrimStart(s[1..]) == s[1..];
      }
      assert s == [s[0]] + s[1..];
    }
  }

  /** What position `i` of `s` contributes to the collapsed text: a non-whitespace character
   *  itself, the first whitespace of a run one space, any later whitespace of the run nothing. */
  function Emit(s: string, i: int): (e: string)
    requires 0 <= i < |s|
    ensures |e| <= 1
  {
    if !IsSpace(s[i]) then [s[i]]
    else if i == 0 || !IsSpace(s[i - 1]) then [' ']
    else []
  }

  /** The contributions of positions `i..` of `s`, in order. */
  function EmitFrom(s: string, i: nat): (r: string)
    requires i <= |s|
    ensures |r| <= |s| - i
    decreases |s| - i
  {
    if i == |s| then [] else Emit(s, i) + EmitFrom(s, i + 1)
  }

  /** A left-to-right scan that remembers whether the previous character was whitespace. */
  function Scan(s: string, afterSpace: bool): (r: string)
    ensures |r| <= |s|
  {
    if s == [] then []
    else if IsSpace(s[0]) then (if afterSpace then [] else [' ']) + Scan(s[1..], true)
    else [s[0]] + Scan(s[1..], false)
  }

  /** The rest of a run of whitespace contributes nothing. */
  lemma {:induction false} ScanSkipsRun(t: string)
    ensures Scan(t, true) == Scan(TrimStart(t), false)
  {
    if t != [] && IsSpace(t[0]) {
      ScanSkipsRun(t[1..]);
    }
  }

  lemma {:induction false} CollapseScans(s: string)
    ensures Collapse(s) == Scan(s, false)
    decreases |s|
  {
    if s != [] {
      if IsSpace(s[0]) {
        var t := TrimStart(s[1..]);
        CollapseScans(t);
        ScanSkipsRun(s[1..]);
      } else {
        CollapseScans(s[1..]);
      }
    }
  }

  lemma {:induction false} ScanEmits(s: string, i: nat)
    requires i <= |s|
    ensures EmitFrom(s, i) == Scan(s[i..], i > 0 && IsSpace(s[i - 1]))
    decreases |s| - i
  {
    if i < |s| {
      ScanEmits(s, i + 1);
      assert s[i..][0] == s[i] && s[i..][1..] == s[i + 1..];
    }
  }

  /** `replace(/\s+/g, " ")` position by position: every non-whitespace character is kept in
   *  order, and each maximal run of whitespace becomes exactly one space. */
  lemma CollapseByPositions(s: string)
    ensures Collapse(s) == EmitFrom(s, 0)
  {
    CollapseScans(s);
    ScanEmits(s, 0);
    assert s[0..] == s;
  }

  // ------------------------------------------------------------ title case

  /** Position `i` starts a word: `\b\w`. */
  predicate WordStart(s: string, i: int)
    requires 0 <= i < |s|
  {
    IsWordChar(s[i]) && (i == 0 || !IsWordChar(s[i - 1]))
  }

  /** `replace(/\b\w/g, (c) => c.toUpperCase())` */
  function TitleCase(s: string): (r: string)
    ensures |r| == |s|
    ensures forall i :: 0 <= i < |s| ==> r[i] == if WordStart(s, i) then ToUpper(s[i]) else s[i]
  {
    seq(|s|, i requires 0 <= i < |s| => if WordStart(s, i) then ToUpper(s[i]) else s[i])
  }

  /** Every word-initial letter is upper case and every other letter lower case. */
  predicate TitleCased(s: string)
  {
    forall i :: 0 <= i < |s| && IsLetter(s[i]) ==> (IsUpperLetter(s[i]) <==> WordStart(s, i))
  }

  /** `b` agrees with `a` on what is whitespace and what is a word character, and on the whitespace itself. */
  predicate SameShape(a: string, b: string)
  {
    && |a| == |b|
    && forall i :: 0 <= i < |a| ==>
      IsSpace(a[i]) == IsSpace(b[i]) && IsWordChar(a[i]) == IsWordChar(b[i]) && (IsSpace(a[i]) ==> a[i] == b[i])
  }

  lemma ShapeKeeps(a: string, b: string)
    requires SameShape(a, b)
    ensures Trimmed(a) ==> Trimmed(b)
    ensures Collapsed(a) ==> Collapsed(b)
    ensures forall i :: 0 <= i < |a| ==> WordStart(a, i) == WordStart(b, i)
  {
  }

  lemma LowerShape(c: string)
    ensures SameShape(c, LowerStr(c))
  {
  }

  lemma TitleShape(l: string)
    ensures SameShape(l, TitleCase(l))
  {
  }

  /** Title-casing lower-case text upper-cases exactly the word-initial letters. */
  lemma TitleCasedOfLower(l: string)
    requires forall i :: 0 <= i < |l| ==> !IsUpperLetter(l[i])
    ensures TitleCased(TitleCase(l))
  {
    var r := TitleCase(l);
    TitleShape(l);
    ShapeKeeps(l, r);
    forall i | 0 <= i < |r| && IsLetter(r[i])
      ensures IsUpperLetter(r[i]) <==> WordStart(r, i)
    {
      assert WordStart(r, i) == WordStart(l, i);
    }
  }

  /** Title-casing changes letter case only. */
  lemma LowerOfTitle(c: string)
    ensures LowerStr(TitleCase(LowerStr(c))) == LowerStr(c)
  {
    var l := LowerStr(c);
    var r := TitleCase(l);
    forall i | 0 <= i < |l|
      ensures ToLower(r[i]) == l[i]
    {
      assert ToLower(l[i]) == l[i];
    }
  }

  /** `normalizeMake`: trimmed, whitespace collapsed to single spaces, lower-cased, then title-cased. */
  function NormalizeMake(s: string): (r: string)
    ensures Trimmed(r) && Collapsed(r)
    ensures TitleCased(r)
    ensures LowerStr(r) == LowerStr(Collapse(Trim(s)))
  {
    var t := Trim(s);
    var c := Collapse(t);
    CollapseIsCollapsed(t);
    CollapseKeepsLast(t);
    assert Trimmed(c);
    var l := LowerStr(c);
    var r := TitleCase(l);
    LowerShape(c);
    ShapeKeeps(c, l);
    TitleShape(l);
    ShapeKeeps(l, r);
    TitleCasedOfLower(l);
    LowerOfTitle(c);
    r
  }

  /** Normalising a normalised make changes nothing. */
  lemma NormalizeMakeIdempotent(s: string)
    ensures NormalizeMake(NormalizeMake(s)) == NormalizeMake(s)
  {
    var t := NormalizeMake(s);
    TrimTrimmed(t);
    CollapseCollapsed(t);
  }

  lemma {:induction false} LowerTrimStart(s: string)
    ensures LowerStr(TrimStart(s)) == TrimStart(LowerStr(s))
  {
    if s != [] && IsSpace(s[0]) {
      assert LowerStr(s)[1..] == LowerStr(s[1..]);
      LowerTrimStart(s[1..]);
    }
  }

  lemma {:induction false} LowerTrimEnd(s: string)
    ensures LowerStr(TrimEnd(s)) == TrimEnd(LowerStr(s))
  {
    if s != [] && IsSpace(s[|s| - 1]) {
      assert LowerStr(s)[..|s| - 1] == LowerStr(s[..|s| - 1]);
      LowerTrimEnd(s[..|s| - 1]);
    }
  }

  lemma LowerAppend(a: string, b: string)
    ensures LowerStr(a + b) == LowerStr(a) + LowerStr(b)
  {
  }

  lemma {:induction false} LowerScan(s: string, afterSpace: bool)
    ensures LowerStr(Scan(s, afterSpace)) == Scan(LowerStr(s), afterSpace)
  {
    if s != [] {
      var l := LowerStr(s);
      assert l[1..] == LowerStr(s[1..]);
      LowerScan(s[1..], IsSpace(s[0]));
      var head := if IsSpace(s[0]) then (if afterSpace then [] else [' ']) else [s[0]];
      LowerAppend(head, Scan(s[1..], IsSpace(s[0])));
    }
  }

  /** Lower-casing and collapsing whitespace can be done in either order. */
  lemma LowerCollapse(s: string)
    ensures LowerStr(Collapse(s)) == Collapse(LowerStr(s))
  {
    CollapseScans(s);
    CollapseScans(LowerStr(s));
    LowerScan(s, false);
  }

  /** Makes that agree once lower-cased, trimmed and with each whitespace run made one space
   *  (`"  TOYOTA   land cruiser"` and `"toyota Land Cruiser"`) are stored under one spelling. */
  lemma NormalizeMakeMerges(a: string, b: string)
    requires Collapse(Trim(LowerStr(a))) == Collapse(Trim(LowerStr(b)))
    ensures NormalizeMake(a) == NormalizeMake(b)
  {
    LowerTrimEnd(a);
    LowerTrimStart(TrimEnd(a));
    LowerCollapse(Trim(a));
    LowerTrimEnd(b);
    LowerTrimStart(TrimEnd(b));
    LowerCollapse(Trim(b));
  }

  // --------------------------------------------------------- numeric inputs

  /** The text starts with a zero that a digit follows. */
  predicate LeadingZero(v: string)
  {
    |v| >= 2 && v[0] == '0' && IsDigit(v[1])
  }

  /** `replace(/^0+(?=\d)/, "")`: the longest run of leading zeros that a digit still follows. */
  function StripLeadingZero(v: string): (r: string)
    ensures !LeadingZero(r)
    ensures |r| <= |v| && r == v[|v| - |r|..]
    ensures forall i :: 0 <= i < |v| - |r| ==> v[i] == '0'
    ensures |r| < |v| ==> r != [] && IsDigit(r[0])
  {
    if LeadingZero(v) then StripLeadingZero(v[1..]) else v
  }

  /** Stripping twice is stripping once. */
  lemma StripLeadingZeroIdempotent(v: string)
    ensures StripLeadingZero(StripLeadingZero(v)) == StripLeadingZero(v)
  {
  }

  /** "007" becomes "7", while a lone "0" and the last zero of "000" stay. */
  lemma StripLeadingZeroExamples()
    ensures StripLeadingZero("0") == "0"
    ensures StripLeadingZero("007") == "7"
    ensures StripLeadingZero("000") == "0"
  {
    assert !LeadingZero("0");
    assert LeadingZero("007") && "007"[1..] == "07" && LeadingZero("07") && "07"[1..] == "7" && !LeadingZero("7");
    assert LeadingZero("000") && "000"[1..] == "00" && LeadingZero("00") && "00"[1..] == "0";
  }

  predicate AllDigits(s: string)
  {
    forall i :: 0 <= i < |s| ==> IsDigit(s[i])
  }

  /** A zero in front of a digit string does not change its value. */
  lemma {:induction false} DigitsValueLeadingZero(s: string)
    requires AllDigits(s)
    ensures DigitsValue(['0'] + s) == DigitsValue(s)
    decreases |s|
  {
    if s != [] {
      var init := s[..|s| - 1];
      DigitsValueLeadingZero(init);
      assert (['0'] + s)[..|s|] == ['0'] + init;
    }
  }

  /** Stripping leading zeros from a digit string keeps its value. */
  lemma {:induction false} StripKeepsValue(v: string)
    requires AllDigits(v)
    ensures AllDigits(StripLeadingZero(v))
    ensures DigitsValue(StripLeadingZero(v)) == DigitsValue(v)
    decreases |v|
  {
    if LeadingZero(v) {
      StripKeepsValue(v[1..]);
      assert v == ['0'] + v[1..];
      DigitsValueLeadingZero(v[1..]);
    }
  }

  /** A JavaScript number as `Number(text)` yields it: an integer, or `NaN`. */
  datatype JsNumber = Num(n: int) | NaN

  /**
   * `Number(text)` on the texts an integer input holds: the empty text is 0, an optional
   * minus sign and decimal digits are that integer, anything else is `NaN`.
   */
  function ToNumber(s: string): (r: JsNumber)
    ensures s == "" ==> r == Num(0)
    ensures AllDigits(s) ==> r == Num(DigitsValue(s))
    ensures r.Num? && r.n < 0 ==> s[0] == '-'
  {
    if AllDigits(s) then Num(DigitsValue(s))
    else if |s| >= 2 && s[0] == '-' && AllDigits(s[1..]) then Num(0 - DigitsValue(s[1..]))
    else NaN
  }

  /** `Number(String(n)) === n` for every integer. */
  lemma ToNumberOfIntToString(n: int)
    ensures ToNumber(IntToString(n)) == Num(n)
  {
    if n < 0 {
      var s := IntToString(n);
      DigitsValueOfNatToString(-n);
      assert s[1..] == NatToString(-n);
      assert !AllDigits(s) by {
        assert !IsDigit(s[0]);
      }
    } else {
      DigitsValueOfNatToString(n);
    }
  }

  /** Stripping leading zeros from a digit string does not change the number it denotes. */
  lemma ToNumberStripped(v: string)
    requires AllDigits(v)
    ensures ToNumber(StripLeadingZero(v)) == ToNumber(v)
  {
    StripKeepsValue(v);
  }

  /** The decimal text of an integer never starts with a zero that a digit follows. */
  lemma IntToStringNoLeadingZero(n: int)
    ensures !LeadingZero(IntToString(n))
  {
  }

  // ---------------------------------------------------------------- the form

  const DefaultImageUrl: string :=
    "https://images.unsplash.com/photo-1553440569-bcc63803a83d?w=800&auto=format&fit=crop"

  /** The text fields of the form and its status selection. */
  datatype FormFields = FormFields(
    make: string,
    model: string,
    year: string,
    price: string,
    mileage: string,
    color: string,
    status: Status,
    vin: string,
    description: string,
    imageUrl: string)

  /** The form's initial state: blank with status `available` and the stock image for a new car, the car's own values for an edit. */
  function InitialFields(car: Option<Car>): (f: FormFields)
    ensures car.None? ==> f == FormFields("", "", "", "", "", "", Available, "", "", DefaultImageUrl)
    ensures car.Some? ==>
      var c := car.value;
      && f.make == c.make && f.model == c.model && f.color == c.color && f.status == c.status
      && f.vin == c.vin && f.description == c.description && f.imageUrl == c.imageUrl
      && ToNumber(f.year) == Num(c.year) && ToNumber(f.price) == Num(c.price)
      && ToNumber(f.mileage) == Num(c.mileage)
    ensures !LeadingZero(f.year) && !LeadingZero(f.price) && !LeadingZero(f.mileage)
  {
    match car
    case None => FormFields("", "", "", "", "", "", Available, "", "", DefaultImageUrl)
    case Some(c) =>
      ToNumberOfIntToString(c.year);
      ToNumberOfIntToString(c.price);
      ToNumberOfIntToString(c.mileage);
      IntToStringNoLeadingZero(c.year);
      IntToStringNoLeadingZero(c.price);
      IntToStringNoLeadingZero(c.mileage);
      FormFields(c.make, c.model, IntToString(c.year), IntToString(c.price), IntToString(c.mileage),
                 c.color, c.status, c.vin, c.description, c.imageUrl)
  }

  /** The record the form hands to its caller (`Omit<Car, "id">`). */
  datatype Payload = Payload(
    make: string,
    model: string,
    year: JsNumber,
    price: JsNumber,
    mileage: JsNumber,
    color: string,
    status: Status,
    vin: string,
    description: string,
    imageUrl: string)

  datatype SubmitOutcome = Refused(alert: string) | Submitted(payload: Payload)

  /** `handleSubmit`: the two guards, then the payload. */
  function HandleSubmit(f: FormFields): (r: SubmitOutcome)
    ensures r.Refused? <==> f.make == "" || f.model == "" || f.year == ""
    ensures f.make == "" || f.model == "" ==> r == Refused("Make and Model are required.")
    ensures f.make != "" && f.model != "" && f.year == "" ==> r == Refused("Year is required.")
    ensures r.Submitted? ==>
      var p := r.payload;
      && p.make == NormalizeMake(f.make) && p.model == f.model && p.color == f.color && p.status == f.status
      && p.vin == f.vin && p.description == f.description && p.imageUrl == f.imageUrl
      && p.year == ToNumber(f.year) && p.price == ToNumber(f.price) && p.mileage == ToNumber(f.mileage)
      && (f.price == "" ==> p.price == Num(0)) && (f.mileage == "" ==> p.mileage == Num(0))
  {
    if f.make == "" || f.model == "" then
      Refused("Make and Model are required.")
    else if f.year == "" then
      Refused("Year is required.")
    else
      Submitted(Payload(
        NormalizeMake(f.make),
        f.model,
        ToNumber(f.year),
        if f.price == "" then Num(0) else ToNumber(f.price),
        if f.mileage == "" then Num(0) else ToNumber(f.mileage),
        f.color,
        f.status,
        f.vin,
        f.description,
        f.imageUrl))
  }

  /** An edit form submitted untouched sends the car back, with only its make normalised. */
  lemma SubmitUnchangedEdit(c: Car)
    requires c.make != "" && c.model != ""
    ensures HandleSubmit(InitialFields(Some(c))) == Submitted(Payload(
      NormalizeMake(c.make), c.model, Num(c.year), Num(c.price), Num(c.mileage),
      c.color, c.status, c.vin, c.description, c.imageUrl))
  {
    var f := InitialFields(Some(c));
    assert f.year == IntToString(c.year);
  }

  /** A new form submitted untouched is refused: make and model are blank. */
  lemma SubmitBlankRefused()
    ensures HandleSubmit(InitialFields(None)) == Refused("Make and Model are required.")
  {
  }

  /** The state behind the form: one field per `useState`. */
  class CarFormState {
    var make: string
    var model: string
    var year: string
    var price: string
    var mileage: string
    var color: string
    var status: Status
    var vin: string
    var description: string
    var imageUrl: string

    function Fields(): FormFields
      reads this
    {
      FormFields(make, model, year, price, mileage, color, status, vin, description, imageUrl)
    }

    /** The numeric inputs never hold a zero that a digit follows. */
    predicate Valid()
      reads this
    {
      !LeadingZero(year) && !LeadingZero(price) && !LeadingZero(mileage)
    }

    constructor (car: Option<Car>)
      ensures Fields() == InitialFields(car)
      ensures Valid()
    {
      var f := InitialFields(car);
      make, model, year, price, mileage := f.make, f.model, f.year, f.price, f.mileage;
      color, status, vin, description, imageUrl := f.color, f.status, f.vin, f.description, f.imageUrl;
    }

    method SetMake(v: string)
      modifies this
      ensures Fields() == old(Fields()).(make := v)
      ensures Valid() == old(Valid())
    {
      make := v;
    }

    method SetModel(v: string)
      modifies this
      ensures Fields() == old(Fields()).(model := v)
      ensures Valid() == old(Valid())
    {
      model := v;
    }

    /** The year input's `onChange`. */
    method SetYear(v: string)
      requires Valid()
      modifies this
      ensures Fields() == old(Fields()).(year := StripLeadingZero(v))
      ensures Valid()
    {
      year := StripLeadingZero(v);
    }

    /** The price input's `onChange`. */
    method SetPrice(v: string)
      requires Valid()
      modifies this
      ensures Fields() == old(Fields()).(price := StripLeadingZero(v))
      ensures Valid()
    {
      price := StripLeadingZero(v);
    }

    /** The mileage input's `onChange`. */
    method SetMileage(v: string)
      requires Valid()
      modifies this
      ensures Fields() == old(Fields()).(mileage := StripLeadingZero(v))
      ensures Valid()
    {
      mileage := StripLeadingZero(v);
    }

    method SetColor(v: string)
      modifies this
      ensures Fields() == old(Fields()).(color := v)
      ensures Valid() == old(Valid())
    {
      color := v;
    }

    method SetStatus(s: Status)
      modifies this
      ensures Fields() == old(Fields()).(status := s)
      ensures Valid() == old(Valid())
    {
      status := s;
    }

    method SetVin(v: string)
      modifies this
      ensures Fields() == old(Fields()).(vin := v)
      ensures Valid() == old(Valid())
    {
      vin := v;
    }

    method SetDescription(v: string)
      modifies this
      ensures Fields() == old(Fields()).(description := v)
      ensures Valid() == old(Valid())
    {
      description := v;
    }

    method SetImageUrl(v: string)
      modifies this
      ensures Fields() == old(Fields()).(imageUrl := v)
      ensures Valid() == old(Valid())
    {
      imageUrl := v;
    }

    /** The form's `onSubmit`: the refusal to alert, or the payload to hand on. */
    method Submit() returns (r: SubmitOutcome)
      ensures r == HandleSubmit(Fields())
      ensures r.Refused? <==> make == "" || model == "" || year == ""
    {
      r := HandleSubmit(Fields());
    }
  }
}
