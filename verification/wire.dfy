/**
 * What the pages see of the server. `api(path, method, body)` is an oracle:
 * each call is recorded as a `Call`, and what it resolves to, or the message
 * it throws, is the `Reply` the caller is given. The JavaScript value
 * conversions the pages apply to form text (`Number`, `parseInt`, truthiness,
 * `a || b`) are defined here too.
 */
module Wire {

  import opened Wrappers
  import opened Text
  import opened Records

  /** The signed-in user the pages read from the auth context. */
  datatype Session = Session(id: int, username: string)

  /** A JavaScript number as the pages produce it: an integer, or NaN. */
  datatype Num = Int(value: int) | NaN

  /** JavaScript truthiness of a number: neither 0 nor NaN. */
  predicate Truthy(n: Num) {
    n.Int? && n.value != 0
  }

  /** A number in a template literal or a URL. */
  function NumText(n: Num): (r: string)
    ensures n.Int? ==> r == IntToString(n.value)
    ensures n.NaN? ==> r == "NaN"
  {
    match n
    case Int(v) => IntToString(v)
    case NaN => "NaN"
  }

  /**
   * `${x}` for an optional number field: `undefined` when the field is
   * missing. The number in an alert reads back as the field's value.
   */
  function FieldText(f: Option<int>): (r: string)
    ensures f.Some? ==> r == IntToString(f.value) && ParseInt(r) == Int(f.value)
    ensures f.None? ==> r == "undefined" && ParseInt(r) == NaN
  {
    match f
    case Some(v) => ParseIntOfText(v); IntToString(v)
    case None => "undefined"
  }

  /** `s || fallback` for an optional string: the fallback when `s` is missing or empty. */
  function StringOr(s: Option<string>, fallback: string): (r: string)
    ensures s.Some? && s.value != "" ==> r == s.value
    ensures s.None? || s.value == "" ==> r == fallback
  {
    if s.Some? && s.value != "" then s.value else fallback
  }

  /**
   * `parseInt(s)`: leading whitespace, an optional `-`, then the longest run
   * of decimal digits; NaN when no digit follows.
   */
  function ParseInt(s: string): (r: Num)
    ensures var t := s[LeadingSpaces(s)..];
            (r.Int? <==> ReadInt(t).Some?) && (r.Int? ==> r.value == ReadInt(t).value.0)
  {
    match ReadInt(s[LeadingSpaces(s)..])
    case None => NaN
    case Some((v, _)) => Int(v)
  }

  /**
   * `Number(s)` for the integer forms: the empty (or blank) string is 0, an
   * optional `-` and digits with only whitespace around are that integer,
   * anything else is NaN.
   */
  function ParseNumber(s: string): (r: Num)
    ensures Trim(s) == "" ==> r == Int(0)
    ensures Trim(s) != "" ==>
              (r.Int? <==> ReadInt(Trim(s)).Some? && ReadInt(Trim(s)).value.1 == "") &&
              (r.Int? ==> r.value == ReadInt(Trim(s)).value.0)
  {
    var t := Trim(s);
    if t == "" then Int(0)
    else match ReadInt(t)
      case Some((v, rest)) => if rest == "" then Int(v) else NaN
      case None => NaN
  }

  /** `parseInt` reads back every integer the pages print. */
  lemma ParseIntOfText(n: int)
    ensures ParseInt(IntToString(n)) == Int(n)
  {
    var s := IntToString(n);
    ReadIntRoundTrip(n, "");
    assert s + "" == s;
    assert LeadingSpaces(s) == 0 by {
      if n < 0 { assert s[0] == '-'; } else { assert IsDigit(s[0]); }
    }
  }

  /** `Number` reads back every integer the pages print. */
  lemma ParseNumberOfText(n: int)
    ensures ParseNumber(IntToString(n)) == Int(n)
  {
    var s := IntToString(n);
    ReadIntRoundTrip(n, "");
    assert s + "" == s;
    assert !IsSpace(s[0]) && !IsSpace(s[|s| - 1]) by {
      if n < 0 { assert s[0] == '-'; } else { assert IsDigit(s[0]); }
      assert IsDigit(s[|s| - 1]) by {
        var m: nat := if n < 0 then -n else n;
        assert s[|s| - 1] == NatToString(m)[|NatToString(m)| - 1];
      }
    }
    TrimOfUnspaced(s);
  }

  /**
   * `parseInt` stops at the first character that is not a digit, so text
   * after a printed integer is ignored: `parseInt("3abc")` is 3.
   */
  lemma ParseIntIgnoresTail(n: int, tail: string)
    requires tail == [] || !IsDigit(tail[0])
    ensures ParseInt(IntToString(n) + tail) == Int(n)
  {
    var s := IntToString(n);
    ReadIntRoundTrip(n, tail);
    assert LeadingSpaces(s + tail) == 0 by {
      if n < 0 { assert (s + tail)[0] == s[0] == '-'; } else { assert IsDigit((s + tail)[0]); }
    }
  }

  /**
   * `Number` refuses what `parseInt` accepts: a printed integer followed by
   * text that does not end in whitespace is NaN (`Number("3abc")`), while
   * `parseInt` reads the integer.
   */
  lemma ParseNumberRejectsTail(n: int, tail: string)
    requires tail != [] && !IsDigit(tail[0]) && !IsSpace(tail[|tail| - 1])
    ensures ParseNumber(IntToString(n) + tail) == NaN
    ensures ParseInt(IntToString(n) + tail) == Int(n)
  {
    var s := IntToString(n);
    ReadIntRoundTrip(n, tail);
    ParseIntIgnoresTail(n, tail);
    assert !IsSpace((s + tail)[0]) by {
      if n < 0 { assert (s + tail)[0] == s[0] == '-'; } else { assert IsDigit((s + tail)[0]); }
    }
    assert (s + tail)[|s + tail| - 1] == tail[|tail| - 1];
    TrimOfUnspaced(s + tail);
  }

  /** A string with no whitespace at either end is its own trim. */
  lemma TrimOfUnspaced(s: string)
    requires |s| > 0 && !IsSpace(s[0]) && !IsSpace(s[|s| - 1])
    ensures Trim(s) == s
  {
    assert LeadingSpaces(s) == 0;
    assert TrailingSpaces(s) == 0;
  }

  /** The body `api` sends, one shape per endpoint that takes one. */
  datatype Body =
    | NoBody
    | CredentialsBody(username: string, password: string)
    | BulkOrderBody(userId: int, items: seq<Item>)
    | BookingBody(userId: int, doctorId: int, timeSlot: string)
    | ConsultBody(appointmentId: int, symptoms: seq<string>)
    | RatingBody(rater: Num, rating: Num)
    | PrescriptionOrderBody(appointmentId: int)

  /** One `api(path, method, body)` call. */
  datatype Call = Call(verb: string, path: string, body: Body)

  function Get(path: string): Call { Call("GET", path, NoBody) }

  /** What an awaited `api(...)` call gives its caller: a parsed body, or the message it throws. */
  datatype Reply<T> = Answer(body: T) | Thrown(message: string)

  /**
   * The fields of a `{status, message, ...}` answer that the pages read; the
   * number fields are those of the purchase and restock answers.
   */
  datatype StatusReply = StatusReply(
    status: string, message: Option<string>, totalCost: Option<int>, newStock: Option<int>)

  /** The answer of `/login` and `/signup`. */
  datatype AuthReply = AuthReply(status: string, userId: int)

  predicate Succeeded(r: Reply<StatusReply>) {
    r.Answer? && r.body.status == "SUCCESS"
  }
}
