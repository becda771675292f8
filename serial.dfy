/** A reversible text encoding of the user record. It stands in for `JSON.stringify` and
    `JSON.parse` of the cached user and is not JSON: `Parse` accepts exactly the texts
    `Stringify` produces, so a stored text written any other way (every JSON text included)
    does not decode. Each field is written with ';' and '\' escaped by '\', followed by ';';
    an escape before any other character is malformed. */
module Serial {
  import opened Wrappers
  import opened Records

  const Sep: char := ';'
  const Esc: char := '\\'

  function Escape(s: string): (r: string)
    ensures |r| >= |s|
  {
    if s == [] then []
    else (if s[0] == Sep || s[0] == Esc then [Esc, s[0]] else [s[0]]) + Escape(s[1..])
  }

  /** Reads characters up to the first unescaped separator, undoing the escapes; returns
      the field and what follows the separator. Only ';' and '\' may follow an escape. */
  function ReadField(s: string): (r: Option<(string, string)>)
    ensures r.Some? ==> |r.value.1| < |s|
    decreases |s|
  {
    if s == [] then None
    else if s[0] == Sep then Some(([], s[1..]))
    else if s[0] == Esc then
      if |s| < 2 || !(s[1] == Sep || s[1] == Esc) then None
      else match ReadField(s[2..])
           case None => None
           case Some((f, rest)) => Some(([s[1]] + f, rest))
    else match ReadField(s[1..])
         case None => None
         case Some((f, rest)) => Some(([s[0]] + f, rest))
  }

  function Field(s: string): (r: string)
    ensures |r| > |s|
  {
    Escape(s) + [Sep]
  }

  lemma {:induction false} ReadFieldOfField(x: string, rest: string)
    ensures ReadField(Field(x) + rest) == Some((x, rest))
    decreases |x|
  {
    if x == [] {
      assert Field(x) + rest == [Sep] + rest;
    } else {
      var c := x[0];
      var tail := Field(x[1..]) + rest;
      ReadFieldOfField(x[1..], rest);
      var head := if c == Sep || c == Esc then [Esc, c] else [c];
      assert Escape(x) == head + Escape(x[1..]);
      var s := Field(x) + rest;
      assert s == head + tail;
      if c == Sep || c == Esc {
        assert s[0] == Esc && s[1] == c && s[2..] == tail;
      } else {
        assert s[0] == c && s[1..] == tail;
      }
      assert [c] + x[1..] == x;
    }
  }

  /** A field is read only from its own encoding: the text is that encoding followed by
      the remainder `ReadField` returns. */
  lemma {:induction false} FieldOfReadField(s: string)
    requires ReadField(s).Some?
    ensures s == Field(ReadField(s).value.0) + ReadField(s).value.1
    decreases |s|
  {
    var (f, rest) := ReadField(s).value;
    if s[0] == Sep {
      assert f == [] && s == [Sep] + s[1..];
    } else if s[0] == Esc {
      FieldOfReadField(s[2..]);
      var (f', rest') := ReadField(s[2..]).value;
      assert f == [s[1]] + f' && rest == rest';
      assert f[0] == s[1] && f[1..] == f';
      assert Escape(f) == [Esc, s[1]] + Escape(f');
      assert s == [s[0], s[1]] + s[2..];
    } else {
      FieldOfReadField(s[1..]);
      var (f', rest') := ReadField(s[1..]).value;
      assert f == [s[0]] + f' && rest == rest';
      assert f[0] == s[0] && f[1..] == f';
      assert Escape(f) == [s[0]] + Escape(f');
      assert s == [s[0]] + s[1..];
    }
  }

  /** The optional grade: '-' when absent, '+' and the grade's field when present. */
  function GradeText(grade: Option<string>): (r: string)
    ensures r != []
  {
    match grade
    case None => "-"
    case Some(g) => "+" + Field(g)
  }

  function ParseGrade(t: string): (r: Option<Option<string>>)
    ensures t == [] ==> r.None?
  {
    if t == "-" then Some(None)
    else if |t| > 0 && t[0] == '+' then
      match ReadField(t[1..])
      case Some((g, rest)) => if rest == [] then Some(Some(g)) else None
      case None => None
    else None
  }

  lemma GradeRoundTrip(grade: Option<string>)
    ensures ParseGrade(GradeText(grade)) == Some(grade)
  {
    if grade.Some? {
      var t := GradeText(grade);
      assert t[1..] == Field(grade.value) + [];
      ReadFieldOfField(grade.value, []);
    }
  }

  lemma GradeOnlyEncodings(t: string)
    ensures ParseGrade(t).Some? ==> t == GradeText(ParseGrade(t).value)
  {
    if ParseGrade(t).Some? && t != "-" {
      FieldOfReadField(t[1..]);
      assert t == [t[0]] + t[1..];
    }
  }

  function Stringify(u: User): (r: string)
    ensures r != []
  {
    Field(u.name) + Field(u.email) + Field(u.role) + GradeText(u.grade)
  }

  /** Decodes a stored text; None when it is not the encoding of a user. */
  function Parse(s: string): (r: Option<User>)
    ensures s == [] ==> r.None?
  {
    match ReadField(s)
    case None => None
    case Some((name, s1)) =>
      match ReadField(s1)
      case None => None
      case Some((email, s2)) =>
        match ReadField(s2)
        case None => None
        case Some((role, s3)) =>
          match ParseGrade(s3)
          case None => None
          case Some(grade) => Some(User(name, email, role, grade))
  }

  lemma ParseStringify(u: User)
    ensures Parse(Stringify(u)) == Some(u)
  {
    var tail := GradeText(u.grade);
    var s := Stringify(u);
    assert s == Field(u.name) + (Field(u.email) + (Field(u.role) + tail));
    ReadFieldOfField(u.name, Field(u.email) + (Field(u.role) + tail));
    ReadFieldOfField(u.email, Field(u.role) + tail);
    ReadFieldOfField(u.role, tail);
    GradeRoundTrip(u.grade);
  }

  /** Decoding accepts nothing but encodings: a text that decodes to a user is that user's
      encoding, character for character. */
  lemma ParseOnlyEncodings(s: string)
    ensures Parse(s).Some? ==> s == Stringify(Parse(s).value)
  {
    if Parse(s).Some? {
      var (name, s1) := ReadField(s).value;
      var (email, s2) := ReadField(s1).value;
      var (role, s3) := ReadField(s2).value;
      FieldOfReadField(s);
      FieldOfReadField(s1);
      FieldOfReadField(s2);
      GradeOnlyEncodings(s3);
      assert s == Field(name) + (Field(email) + (Field(role) + s3));
    }
  }

  /** An escape before an ordinary character is malformed, so a redundantly escaped text
      does not decode. */
  lemma RedundantEscapeRejected()
    ensures Parse("\\a;b;c;-") == None
  {
    assert ReadField("\\a;b;c;-") == None;
  }
}
