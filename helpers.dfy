/** Small helpers shared by the services and the API: one-time codes, their
    validity window, phone normalisation, pagination arithmetic, masking of
    sensitive keys and the response envelope.

    Instants are integers counting microseconds (the resolution of Python's
    `datetime`); `now` stands for `datetime.utcnow()`. */
module Helpers {
  import opened Wrappers
  import opened Text
  import opened Json
  import Tables

  const MicrosPerSecond: int := 1_000_000
  const MicrosPerMinute: int := 60 * MicrosPerSecond

  /** Default number of digits of a one-time code and minutes it stays valid. */
  const OtpLength: int := 6
  const OtpValidityMinutes: int := 10
  /** Minutes a password-reset code stays valid. */
  const ResetValidityMinutes: int := 30

  // ---------------------------------------------------------------- codes

  /** `generate_otp(length)`: one digit per position, `draw(i)` standing for the
      i-th `secrets.choice`. A negative length gives the empty code, as `range` does. */
  function GenerateOtp(length: int, draw: nat -> nat): (r: string)
    ensures |r| == if length < 0 then 0 else length
    ensures AllDigits(r)
  {
    var n := if length < 0 then 0 else length;
    seq(n, i requires 0 <= i < n => '0' + (draw(i) % 10) as char)
  }

  /** Every digit string of the requested length is a possible code. */
  lemma EveryCodeIsPossible(code: string)
    requires AllDigits(code)
    ensures GenerateOtp(|code|, (i: nat) => if i < |code| then (code[i] - '0') as nat else 0) == code
  {
    var draw := (i: nat) => if i < |code| then (code[i] - '0') as nat else 0;
    var r := GenerateOtp(|code|, draw);
    forall i | 0 <= i < |code| ensures r[i] == code[i] {
      assert IsDigit(code[i]);
    }
  }

  /** `is_otp_valid(created_at, validity_minutes)`: a code issued at `createdAt`
      is valid strictly before `createdAt + validity`. */
  predicate IsOtpValid(createdAt: Option<int>, validityMinutes: int, now: int)
  {
    createdAt.Some? && now < createdAt.value + validityMinutes * MicrosPerMinute
  }

  lemma OtpValidityWindow(createdAt: Option<int>, validityMinutes: int, now: int)
    ensures createdAt.None? ==> !IsOtpValid(createdAt, validityMinutes, now)
    ensures (createdAt.Some? && now == createdAt.value + validityMinutes * MicrosPerMinute)
      ==> !IsOtpValid(createdAt, validityMinutes, now)
    ensures (createdAt.Some? && createdAt.value <= now < createdAt.value + validityMinutes * MicrosPerMinute)
      ==> IsOtpValid(createdAt, validityMinutes, now)
  {
  }

  /** Once a code has lapsed it stays lapsed, and a longer window never rejects
      what a shorter one accepts. */
  lemma OtpValidityMonotone(createdAt: Option<int>, m1: int, m2: int, t1: int, t2: int)
    requires t1 <= t2 && m2 <= m1
    ensures IsOtpValid(createdAt, m2, t2) ==> IsOtpValid(createdAt, m1, t1)
  {
    assert m2 * MicrosPerMinute <= m1 * MicrosPerMinute;
  }

  // ---------------------------------------------------------------- phones

  /** `format_phone_number(phone)`: None for the empty string, otherwise the
      digits of `phone`, less a leading `91` when there are 13 of them or a
      leading `0` when there are 12. */
  function FormatPhoneNumber(phone: string): (r: Option<string>)
    ensures r.None? <==> phone == ""
    ensures r.Some? ==> AllDigits(r.value) && |r.value| <= |Digits(phone)|
    ensures r.Some? ==> r.value == Digits(phone)[|Digits(phone)| - |r.value|..]
    ensures (&& phone != ""
             && !(|Digits(phone)| == 13 && StartsWith(Digits(phone), "91"))
             && !(|Digits(phone)| == 12 && StartsWith(Digits(phone), "0")))
            ==> r == Some(Digits(phone))
  {
    if phone == "" then None
    else
      var d := Digits(phone);
      if |d| == 10 then Some(d)
      else if |d| == 13 && StartsWith(d, "91") then Some(d[2..])
      else if |d| == 12 && StartsWith(d, "0") then Some(d[1..])
      else Some(d)
  }

  /** An input with ten digits, whatever separators it has, comes back as
      those digits; a bare ten-digit input comes back unchanged. */
  lemma FormatKeepsTenDigits(phone: string)
    requires |Digits(phone)| == 10
    ensures FormatPhoneNumber(phone) == Some(Digits(phone))
    ensures AllDigits(phone) ==> FormatPhoneNumber(phone) == Some(phone)
  {
    assert phone != "";
    if AllDigits(phone) {
      DigitsOfDigits(phone);
    }
  }

  /** Formatting a non-empty result again changes nothing. */
  lemma {:induction false} FormatIdempotent(phone: string)
    requires FormatPhoneNumber(phone).Some? && FormatPhoneNumber(phone).value != ""
    ensures FormatPhoneNumber(FormatPhoneNumber(phone).value) == FormatPhoneNumber(phone)
  {
    var d := Digits(phone);
    var r := FormatPhoneNumber(phone).value;
    DigitsOfDigits(r);
    if |d| == 13 && StartsWith(d, "91") {
      assert |r| == 11;
    } else if |d| == 12 && StartsWith(d, "0") {
      assert |r| == 11;
    } else {
      assert r == d;
    }
    assert FormatPhoneNumber(r) == Some(r);
  }

  lemma {:induction false} DigitsOfDigits(s: string)
    requires AllDigits(s)
    ensures Digits(s) == s
  {
    if s != [] { DigitsOfDigits(s[1..]); }
  }

  /** The country-code and trunk-prefix branches both leave eleven digits. */
  lemma PrefixBranchesGiveElevenDigits(phone: string)
    requires || (|Digits(phone)| == 13 && StartsWith(Digits(phone), "91"))
             || (|Digits(phone)| == 12 && StartsWith(Digits(phone), "0"))
    ensures FormatPhoneNumber(phone).Some? && |FormatPhoneNumber(phone).value| == 11
  {
    var d := Digits(phone);
    assert phone != "";
    assert |d| == 13 ==> FormatPhoneNumber(phone) == Some(d[2..]);
  }

  // ---------------------------------------------------------------- pages

  /** Python's `a // b` (rounds toward negative infinity). */
  function FloorDiv(a: int, b: int): (q: int)
    requires b != 0
    ensures b > 0 ==> q * b <= a < q * b + b
    ensures b < 0 ==> q * b >= a > q * b + b
  {
    if b > 0 then a / b else (-a) / (-b)
  }

  datatype Page<T> = Page(items: seq<T>, total: int, page: int, perPage: int, pages: int,
                          hasNext: bool, hasPrev: bool)

  /** SQL `OFFSET n`: a negative offset counts as zero. */
  function Skip<T>(s: seq<T>, n: int): (r: seq<T>)
    ensures |r| <= |s| && r == s[|s| - |r|..]
    ensures |r| == if n <= 0 then |s| else if n >= |s| then 0 else |s| - n
  {
    if n <= 0 then s else if n >= |s| then [] else s[n..]
  }

  /** `paginate_query(query, page, per_page, max_per_page)` over the rows the
      query returns. None is the division by zero a zero page size causes. */
  function Paginate<T>(rows: seq<T>, page: int, perPage: int, maxPerPage: int): (r: Option<Page<T>>)
  {
    var pp := if perPage > maxPerPage then maxPerPage else perPage;
    if pp == 0 then None
    else
      var total := |rows|;
      Some(Page(Tables.Take(Skip(rows, (page - 1) * pp), pp), total, page, pp,
                FloorDiv(total + pp - 1, pp), page * pp < total, page > 1))
  }

  /** The page size is capped at `maxPerPage`; with a positive size, `pages` is
      the ceiling of total over size, `has_next` holds exactly when a later page
      exists, and `has_prev` exactly when the page is not the first. */
  lemma PaginateCounts<T>(rows: seq<T>, page: int, perPage: int, maxPerPage: int)
    requires 0 < perPage <= maxPerPage || 0 < maxPerPage < perPage
    requires page >= 1
    ensures Paginate(rows, page, perPage, maxPerPage).Some?
    ensures var p := Paginate(rows, page, perPage, maxPerPage).value;
      && p.perPage == (if perPage > maxPerPage then maxPerPage else perPage)
      && p.total == |rows|
      && ((p.pages - 1) * p.perPage < p.total <= p.pages * p.perPage || (p.total == 0 && p.pages == 0))
      && (p.hasNext <==> p.page < p.pages)
      && (p.hasPrev <==> p.page != 1)
  {
    var pp := if perPage > maxPerPage then maxPerPage else perPage;
    CeilingDiv(|rows|, pp);
    LaterPageExists(|rows|, pp, page);
  }

  /** Rows remain after page `page` exactly when `page` is below the page count. */
  lemma LaterPageExists(total: nat, pp: int, page: int)
    requires pp > 0 && page >= 1
    ensures page * pp < total <==> page < FloorDiv(total + pp - 1, pp)
  {
    var pages := FloorDiv(total + pp - 1, pp);
    CeilingDiv(total, pp);
    if page * pp < total {
      assert total <= pages * pp;
      MulLessCancel(page, pages, pp);
    } else if total > 0 {
      assert (pages - 1) * pp < total <= page * pp;
      MulLessCancel(pages - 1, page, pp);
    } else {
      assert pages * pp <= pp - 1;
      MulLessCancel(pages, 1, pp);
    }
  }

  /** The items of a page are the rows from offset `(page - 1) * size` on, at most `size` of them. */
  lemma PaginateItems<T>(rows: seq<T>, page: int, perPage: int, maxPerPage: int)
    requires 0 < perPage <= maxPerPage || 0 < maxPerPage < perPage
    requires page >= 1
    ensures Paginate(rows, page, perPage, maxPerPage).Some?
    ensures var p := Paginate(rows, page, perPage, maxPerPage).value;
      && |p.items| <= p.perPage
      && (forall i :: 0 <= i < |p.items| ==> p.items[i] == rows[(page - 1) * p.perPage + i])
      && (|p.items| < p.perPage ==> (page - 1) * p.perPage + |p.items| >= |rows|)
  {
    var pp := if perPage > maxPerPage then maxPerPage else perPage;
    var off := (page - 1) * pp;
    MulNonNegative(page - 1, pp);
    PageWindow(rows, off, pp);
    var p := Paginate(rows, page, perPage, maxPerPage).value;
    assert p.perPage == pp && p.items == Tables.Take(Skip(rows, off), pp);
  }

  /** The window `LIMIT pp OFFSET off` of the rows. */
  lemma PageWindow<T>(rows: seq<T>, off: int, pp: int)
    requires off >= 0 && pp > 0
    ensures var items := Tables.Take(Skip(rows, off), pp);
      && |items| <= pp
      && (forall i :: 0 <= i < |items| ==> items[i] == rows[off + i])
      && (|items| < pp ==> off + |items| >= |rows|)
  {
    if off < |rows| {
      assert Skip(rows, off) == rows[off..];
    }
  }

  lemma MulNonNegative(a: int, b: int)
    requires a >= 0 && b >= 0
    ensures a * b >= 0
  {
  }

  /** Whatever the arguments, a page holds only rows of the query, and its
      total counts them all. */
  lemma PageItemsAreRows<T>(rows: seq<T>, page: int, perPage: int, maxPerPage: int)
    requires Paginate(rows, page, perPage, maxPerPage).Some?
    ensures forall x :: x in Paginate(rows, page, perPage, maxPerPage).value.items ==> x in rows
    ensures Paginate(rows, page, perPage, maxPerPage).value.total == |rows|
  {
    var pp := if perPage > maxPerPage then maxPerPage else perPage;
    var sk := Skip(rows, (page - 1) * pp);
    var items := Tables.Take(sk, pp);
    assert Paginate(rows, page, perPage, maxPerPage).value.items == items;
    forall x | x in items
      ensures x in rows
    {
      var i :| 0 <= i < |items| && items[i] == x;
      assert x == sk[i] == rows[|rows| - |sk| + i];
    }
  }

  lemma CeilingDiv(total: nat, pp: int)
    requires pp > 0
    ensures var q := FloorDiv(total + pp - 1, pp);
      (q - 1) * pp < total <= q * pp || (total == 0 && q == 0)
  {
    var q := FloorDiv(total + pp - 1, pp);
    assert q * pp <= total + pp - 1 < q * pp + pp;
    assert (q - 1) * pp == q * pp - pp;
  }

  lemma MulLessCancel(a: int, b: int, c: int)
    requires c > 0 && a * c < b * c
    ensures a < b
  {
  }

  // ---------------------------------------------------------------- masking

  const Masked: string := "***MASKED***"
  const DefaultSensitive: seq<string> := ["password", "password_hash", "otp_code", "token"]

  /** `mask_sensitive_data(data, sensitive_fields)`: every dict key is kept, the
      value of a sensitive key becomes the mask, nested dicts and lists are
      masked in turn, anything else is returned as it is. */
  function Mask(v: Value, sensitive: seq<string>): (r: Value)
    ensures !v.Obj? && !v.List? ==> r == v
    ensures v.Obj? ==> r.Obj? && Keys(r.fields) == Keys(v.fields)
    ensures v.Obj? ==> |r.fields| == |v.fields| && forall i :: 0 <= i < |v.fields| ==>
      r.fields[i] == (v.fields[i].0, if v.fields[i].0 in sensitive then Str(Masked) else Mask(v.fields[i].1, sensitive))
    ensures v.List? ==> r.List? && |r.items| == |v.items|
    ensures v.List? ==> forall i :: 0 <= i < |v.items| ==> r.items[i] == Mask(v.items[i], sensitive)
    decreases v
  {
    match v
    case Obj(fields) =>
      Obj(seq(|fields|, i requires 0 <= i < |fields| =>
        (fields[i].0,
         if fields[i].0 in sensitive then Str(Masked)
         else if fields[i].1.Obj? || fields[i].1.List? then Mask(fields[i].1, sensitive)
         else fields[i].1)))
    case List(items) =>
      List(seq(|items|, i requires 0 <= i < |items| => Mask(items[i], sensitive)))
    case _ => v
  }

  /** Whether a sensitive key holds anything but the mask, at any depth. */
  predicate Exposes(v: Value, sensitive: seq<string>)
    decreases v
  {
    match v
    case Obj(fields) =>
      exists i :: 0 <= i < |fields| &&
        ((fields[i].0 in sensitive && fields[i].1 != Str(Masked)) || Exposes(fields[i].1, sensitive))
    case List(items) => exists i :: 0 <= i < |items| && Exposes(items[i], sensitive)
    case _ => false
  }

  /** Whether a sensitive key occurs at any depth. */
  predicate NamesSensitive(v: Value, sensitive: seq<string>)
    decreases v
  {
    match v
    case Obj(fields) =>
      exists i :: 0 <= i < |fields| && (fields[i].0 in sensitive || NamesSensitive(fields[i].1, sensitive))
    case List(items) => exists i :: 0 <= i < |items| && NamesSensitive(items[i], sensitive)
    case _ => false
  }

  /** Masking keeps everything public: a value with no sensitive key at any
      depth comes back exactly as it was. */
  lemma {:induction false} MaskKeepsPublic(v: Value, sensitive: seq<string>)
    requires !NamesSensitive(v, sensitive)
    ensures Mask(v, sensitive) == v
    decreases v
  {
    match v
    case Obj(fields) =>
      var r := Mask(v, sensitive);
      forall i | 0 <= i < |fields| ensures r.fields[i] == fields[i] {
        if fields[i].1.Obj? || fields[i].1.List? {
          MaskKeepsPublic(fields[i].1, sensitive);
        }
      }
      assert r.fields == fields;
    case List(items) =>
      var r := Mask(v, sensitive);
      forall i | 0 <= i < |items| ensures r.items[i] == items[i] {
        MaskKeepsPublic(items[i], sensitive);
      }
      assert r.items == items;
    case _ =>
  }

  /** No sensitive value survives masking, however deeply it is nested. */
  lemma {:induction false} MaskHidesSensitive(v: Value, sensitive: seq<string>)
    ensures !Exposes(Mask(v, sensitive), sensitive)
    decreases v
  {
    match v
    case Obj(fields) =>
      var r := Mask(v, sensitive);
      forall i | 0 <= i < |fields|
        ensures !(r.fields[i].0 in sensitive && r.fields[i].1 != Str(Masked)) && !Exposes(r.fields[i].1, sensitive)
      {
        if fields[i].0 !in sensitive && (fields[i].1.Obj? || fields[i].1.List?) {
          MaskHidesSensitive(fields[i].1, sensitive);
        }
      }
    case List(items) =>
      forall i | 0 <= i < |items| ensures !Exposes(Mask(v, sensitive).items[i], sensitive) {
        MaskHidesSensitive(items[i], sensitive);
      }
    case _ =>
  }

  /** Masking twice is masking once. */
  lemma {:induction false} MaskIdempotent(v: Value, sensitive: seq<string>)
    ensures Mask(Mask(v, sensitive), sensitive) == Mask(v, sensitive)
    decreases v
  {
    match v
    case Obj(fields) =>
      var r := Mask(v, sensitive);
      var rr := Mask(r, sensitive);
      assert |rr.fields| == |r.fields|;
      forall i | 0 <= i < |fields| ensures rr.fields[i] == r.fields[i] {
        if fields[i].0 !in sensitive && (fields[i].1.Obj? || fields[i].1.List?) {
          MaskIdempotent(fields[i].1, sensitive);
        }
      }
    case List(items) =>
      var r := Mask(v, sensitive);
      var rr := Mask(r, sensitive);
      forall i | 0 <= i < |items| ensures rr.items[i] == r.items[i] {
        MaskIdempotent(items[i], sensitive);
      }
    case _ =>
  }

  // ---------------------------------------------------------------- envelope

  /** `create_response`: the body (with `stamp` standing for the ISO timestamp)
      and the status code. */
  function CreateResponse(success: bool, message: string, data: Value, errors: Value,
                          stamp: string, status: int): (r: (Dict, int))
    ensures r.1 == status
    ensures HasKey(r.0, "data") <==> data != Null
    ensures HasKey(r.0, "errors") <==> errors != Null
    ensures Get(r.0, "success") == Bool(success) && Get(r.0, "message") == Str(message)
    ensures data != Null ==> Get(r.0, "data") == data
    ensures errors != Null ==> Get(r.0, "errors") == errors
  {
    var base := Envelope(success, message, stamp);
    var withData := if data != Null then base + [("data", data)] else base;
    var body := if errors != Null then withData + [("errors", errors)] else withData;
    assert "errors"[0] != "data"[0] && "errors"[0] != "success"[0] && "errors"[0] != "message"[0];
    assert "data"[0] != "success"[0] && "data"[0] != "message"[0];
    LookupAppend(base, "data", data);
    LookupAppend(withData, "errors", errors);
    (body, status)
  }

  /** The three keys every response carries. */
  function Envelope(success: bool, message: string, stamp: string): (d: Dict)
    ensures Lookup(d, "success") == Some(Bool(success))
    ensures Lookup(d, "message") == Some(Str(message))
    ensures Lookup(d, "data") == None && Lookup(d, "errors") == None
  {
    [("success", Bool(success)), ("message", Str(message)), ("timestamp", Str(stamp))]
  }

  lemma {:induction false} LookupAppend(d: Dict, key: string, v: Value)
    ensures Lookup(d + [(key, v)], key) == (if HasKey(d, key) then Lookup(d, key) else Some(v))
    ensures forall k :: k != key ==> Lookup(d + [(key, v)], k) == Lookup(d, k)
  {
    if d != [] {
      assert (d + [(key, v)])[1..] == d[1..] + [(key, v)];
      LookupAppend(d[1..], key, v);
    }
  }

  function SuccessResponse(message: string, data: Value, stamp: string, status: int): (r: (Dict, int))
    ensures Get(r.0, "success") == Bool(true) && !HasKey(r.0, "errors") && r.1 == status
  {
    CreateResponse(true, message, data, Null, stamp, status)
  }

  function ErrorResponse(message: string, errors: Value, stamp: string, status: int): (r: (Dict, int))
    ensures Get(r.0, "success") == Bool(false) && !HasKey(r.0, "data") && r.1 == status
  {
    CreateResponse(false, message, Null, errors, stamp, status)
  }
}
