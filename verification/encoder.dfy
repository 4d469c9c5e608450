/** The capture-option encoder of `SPN2Client.savePageNow`: a
    `SavePageNowOptions` record becomes the ordered list of form fields that
    `URLSearchParams` later serialises. The list is modelled; its
    percent-encoded text is not. */
module Encoder {
  import opened Wrappers

  /** One form field, (name, value), in the order it was appended. */
  type Field = (string, string)

  /** `SavePageNowAuth`: both halves optional. */
  datatype Auth = Auth(username: Option<string>, password: Option<string>)

  /** `SavePageNowOptions`. Every modifier is optional (`None` is an absent
      property). The array form of the freshness window may hold numbers or
      strings in the source; here its elements are the strings JavaScript's
      `join` renders them as. */
  datatype Options = Options(
    url: string,
    captureAll: Option<bool>,
    captureOutlinks: Option<bool>,
    captureScreenshot: Option<bool>,
    delayWBAvailability: Option<bool>,
    forceGet: Option<bool>,
    skipFirstArchive: Option<bool>,
    ifNotArchivedWithin: Option<string>,
    ifNotArchivedWithinBetween: Option<seq<string>>,
    outlinksAvailability: Option<bool>,
    emailResults: Option<bool>,
    captureExternalCookies: Option<string>,
    captureExternalUserAgent: Option<string>,
    captureTargetAuthorizations: Option<Auth>)

  /** An options record carrying only the target URL. */
  function UrlOnly(url: string): Options {
    Options(url, None, None, None, None, None, None, None, None, None, None, None, None, None)
  }

  /* ---------------------------------------------------------------------
     JavaScript truthiness of the option values
     --------------------------------------------------------------------- */

  /** `flag || false`, then taken as a condition: only a present `true`. */
  predicate FlagSet(flag: Option<bool>) {
    flag == Some(true)
  }

  /** A string option is truthy when present and non-empty. */
  predicate Filled(s: Option<string>) {
    s.Some? && s.value != ""
  }

  /** `s || fallback` for an optional string. */
  function StrOr(s: Option<string>, fallback: string): (r: string)
    ensures Filled(s) ==> r == s.value
    ensures !Filled(s) ==> r == fallback
  {
    if Filled(s) then s.value else fallback
  }

  /** `booleanParser`: `'1'` for true, `undefined` for false. */
  function BooleanParser(value: bool): (r: Option<string>)
    ensures r.Some? <==> value
    ensures value ==> r == Some("1")
    ensures r != Some("0")
  {
    if value then Some("1") else None
  }

  /* ---------------------------------------------------------------------
     Array.prototype.join and its inverse
     --------------------------------------------------------------------- */

  /** The total length of a list of strings. */
  function TotalLength(items: seq<string>): nat {
    if |items| == 0 then 0 else |items[0]| + TotalLength(items[1..])
  }

  /** `items.join(sep)`: the empty array gives the empty string and a
      single element is sent as it is. */
  function Join(items: seq<string>, sep: string): (r: string)
    ensures |items| == 0 ==> r == ""
    ensures |items| == 1 ==> r == items[0]
  {
    if |items| == 0 then ""
    else if |items| == 1 then items[0]
    else items[0] + sep + Join(items[1..], sep)
  }

  /** The shape of a join: it starts with the first element, ends with the
      last, and is as long as the elements plus one separator between each
      adjacent pair. */
  lemma {:induction false} JoinShape(items: seq<string>, sep: string)
    requires |items| >= 1
    ensures |Join(items, sep)| == TotalLength(items) + (|items| - 1) * |sep|
    ensures Join(items, sep)[..|items[0]|] == items[0]
    ensures |items[|items| - 1]| <= |Join(items, sep)|
    ensures Join(items, sep)[|Join(items, sep)| - |items[|items| - 1]|..] == items[|items| - 1]
  {
    if |items| >= 2 {
      var rest := Join(items[1..], sep);
      JoinShape(items[1..], sep);
      assert items[1..][|items[1..]| - 1] == items[|items| - 1];
      assert TotalLength(items[1..]) >= |items[|items| - 1]| by {
        TotalLengthAtLeastLast(items[1..]);
      }
      var r := items[0] + sep + rest;
      assert r[|r| - |items[|items| - 1]|..] == rest[|rest| - |items[|items| - 1]|..];
    }
  }

  /** No element is longer than the whole list. */
  lemma {:induction false} TotalLengthAtLeastLast(items: seq<string>)
    requires |items| >= 1
    ensures TotalLength(items) >= |items[|items| - 1]|
  {
    if |items| >= 2 {
      TotalLengthAtLeastLast(items[1..]);
      assert items[1..][|items[1..]| - 1] == items[|items| - 1];
    }
  }

  /** Cuts `s` at every occurrence of `sep`: the inverse of `Join`, its
      round-trip partner. Always at least one part. */
  function Split(s: string, sep: char): (parts: seq<string>)
    ensures |parts| >= 1
  {
    if |s| == 0 then [""]
    else
      var rest := Split(s[1..], sep);
      if s[0] == sep then [""] + rest
      else [[s[0]] + rest[0]] + rest[1..]
  }

  /** A string free of `sep` is not cut. */
  lemma {:induction false} SplitWithoutSeparator(x: string, sep: char)
    requires sep !in x
    ensures Split(x, sep) == [x]
  {
    if |x| > 0 {
      assert x[0] != sep by { assert x[0] in x; }
      SplitWithoutSeparator(x[1..], sep);
      assert [x[0]] + x[1..] == x;
    }
  }

  /** Splitting at the first separator yields the part before it. */
  lemma {:induction false} SplitAtFirst(x: string, sep: char, tail: string)
    requires sep !in x
    ensures Split(x + [sep] + tail, sep) == [x] + Split(tail, sep)
  {
    var s := x + [sep] + tail;
    if |x| == 0 {
      assert s[1..] == tail;
    } else {
      assert s[1..] == x[1..] + [sep] + tail;
      SplitAtFirst(x[1..], sep, tail);
      assert [x[0]] + x[1..] == x;
    }
  }

  /** Round trip of the freshness-window join: a non-empty list of
      comma-free tokens is recovered by cutting the joined value at commas. */
  lemma {:induction false} SplitJoin(items: seq<string>)
    requires |items| >= 1
    requires forall i :: 0 <= i < |items| ==> ',' !in items[i]
    ensures Split(Join(items, ","), ',') == items
  {
    if |items| == 1 {
      SplitWithoutSeparator(items[0], ',');
    } else {
      SplitJoin(items[1..]);
      SplitAtFirst(items[0], ',', Join(items[1..], ","));
      assert items[0] + "," + Join(items[1..], ",") == items[0] + [','] + Join(items[1..], ",");
    }
  }

  /* ---------------------------------------------------------------------
     The encoder, branch by branch as `savePageNow` appends fields
     --------------------------------------------------------------------- */

  /** `if (parsed) append(name, parsed || '0')` for one boolean modifier. */
  function FlagField(name: string, flag: Option<bool>): seq<Field> {
    var parsed := BooleanParser(FlagSet(flag));
    if parsed.Some? then [(name, parsed.GetOr("0"))] else []
  }

  /** `if (s) append(name, s || '')` for one string modifier. */
  function TextField(name: string, s: Option<string>): seq<Field> {
    if Filled(s) then [(name, StrOr(s, ""))] else []
  }

  /** The freshness window. An array, empty or not, is truthy, so the array
      form is joined with commas and the single form ignored whenever the
      array is present; otherwise a non-empty single form passes through. */
  function FreshnessField(single: Option<string>, between: Option<seq<string>>): seq<Field> {
    if between.Some? then [("if_not_archived_within", Join(between.value, ","))]
    else if Filled(single) then [("if_not_archived_within", StrOr(single, ""))]
    else []
  }

  /** The target-site credentials. A missing credential object defaults to
      `{}`, which is truthy, so both fields are appended on every request,
      with `""` for a missing or empty half. */
  function CredentialFields(auth: Option<Auth>): seq<Field> {
    var a := auth.GetOr(Auth(None, None));
    [("target_username", StrOr(a.username, "")),
     ("target_password", StrOr(a.password, ""))]
  }

  /** The request body of `savePageNow`, as an ordered field list. */
  function Encode(o: Options): (body: seq<Field>)
    ensures |body| >= 3
    ensures body[0] == ("url", o.url)
    ensures body[|body| - 2].0 == "target_username"
    ensures body[|body| - 1].0 == "target_password"
  {
    [("url", o.url)]
    + FlagField("capture_all", o.captureAll)
    + FlagField("capture_outlinks", o.captureOutlinks)
    + FlagField("capture_screenshot", o.captureScreenshot)
    + FlagField("delay_wb_availability", o.delayWBAvailability)
    + FlagField("force_get", o.forceGet)
    + FlagField("skip_first_archive", o.skipFirstArchive)
    + FreshnessField(o.ifNotArchivedWithin, o.ifNotArchivedWithinBetween)
    + FlagField("outlinks_availability", o.outlinksAvailability)
    + FlagField("email_result", o.emailResults)
    + TextField("capture_cookie", o.captureExternalCookies)
    + TextField("use_user_agent", o.captureExternalUserAgent)
    + CredentialFields(o.captureTargetAuthorizations)
  }

  /* ---------------------------------------------------------------------
     The declarative wire table: one rule per wire field, in wire order
     --------------------------------------------------------------------- */

  /** The wire fields the encoder can emit, declared in the order it emits
      them. */
  datatype WireField =
    | Url | CaptureAll | CaptureOutlinks | CaptureScreenshot
    | DelayWbAvailability | ForceGet | SkipFirstArchive
    | IfNotArchivedWithin | OutlinksAvailability | EmailResult
    | CaptureCookie | UseUserAgent | TargetUsername | TargetPassword
  {
    /** The form field name on the wire. */
    function Name(): string {
      match this
      case Url => "url"
      case CaptureAll => "capture_all"
      case CaptureOutlinks => "capture_outlinks"
      case CaptureScreenshot => "capture_screenshot"
      case DelayWbAvailability => "delay_wb_availability"
      case ForceGet => "force_get"
      case SkipFirstArchive => "skip_first_archive"
      case IfNotArchivedWithin => "if_not_archived_within"
      case OutlinksAvailability => "outlinks_availability"
      case EmailResult => "email_result"
      case CaptureCookie => "capture_cookie"
      case UseUserAgent => "use_user_agent"
      case TargetUsername => "target_username"
      case TargetPassword => "target_password"
    }

    /** The field's position in the wire order. */
    function Rank(): nat {
      match this
      case Url => 0
      case CaptureAll => 1
      case CaptureOutlinks => 2
      case CaptureScreenshot => 3
      case DelayWbAvailability => 4
      case ForceGet => 5
      case SkipFirstArchive => 6
      case IfNotArchivedWithin => 7
      case OutlinksAvailability => 8
      case EmailResult => 9
      case CaptureCookie => 10
      case UseUserAgent => 11
      case TargetUsername => 12
      case TargetPassword => 13
    }

    /** Whether the field carries a boolean modifier. */
    predicate IsFlag() {
      this in {CaptureAll, CaptureOutlinks, CaptureScreenshot, DelayWbAvailability,
               ForceGet, SkipFirstArchive, OutlinksAvailability, EmailResult}
    }
  }

  /** The number of wire fields. */
  const FieldCount: nat := 14

  /** The wire order: the field at position `k`. */
  function FieldAt(k: nat): (f: WireField)
    requires k < FieldCount
    ensures f.Rank() == k
  {
    match k
    case 0 => Url
    case 1 => CaptureAll
    case 2 => CaptureOutlinks
    case 3 => CaptureScreenshot
    case 4 => DelayWbAvailability
    case 5 => ForceGet
    case 6 => SkipFirstArchive
    case 7 => IfNotArchivedWithin
    case 8 => OutlinksAvailability
    case 9 => EmailResult
    case 10 => CaptureCookie
    case 11 => UseUserAgent
    case 12 => TargetUsername
    case _ => TargetPassword
  }

  /** The position of a wire name in the wire order; `FieldCount` for a
      name that is not a wire field. */
  function NameRank(name: string): (k: nat)
    ensures k <= FieldCount
  {
    match name
    case "url" => 0
    case "capture_all" => 1
    case "capture_outlinks" => 2
    case "capture_screenshot" => 3
    case "delay_wb_availability" => 4
    case "force_get" => 5
    case "skip_first_archive" => 6
    case "if_not_archived_within" => 7
    case "outlinks_availability" => 8
    case "email_result" => 9
    case "capture_cookie" => 10
    case "use_user_agent" => 11
    case "target_username" => 12
    case "target_password" => 13
    case _ => 14
  }

  /** Wire names identify their field: the name's rank is the field's. */
  lemma NameRankOfField(f: WireField)
    ensures NameRank(f.Name()) == f.Rank()
  {
  }

  /** The wire table: the value field `f` carries for options `o`, or
      `None` when the field is not sent. Stated per field from the option
      semantics, independently of the encoder's branches. */
  function Rule(o: Options, f: WireField): Option<string> {
    match f
    case Url => Some(o.url)
    case CaptureAll => if o.captureAll == Some(true) then Some("1") else None
    case CaptureOutlinks => if o.captureOutlinks == Some(true) then Some("1") else None
    case CaptureScreenshot => if o.captureScreenshot == Some(true) then Some("1") else None
    case DelayWbAvailability => if o.delayWBAvailability == Some(true) then Some("1") else None
    case ForceGet => if o.forceGet == Some(true) then Some("1") else None
    case SkipFirstArchive => if o.skipFirstArchive == Some(true) then Some("1") else None
    case IfNotArchivedWithin =>
      (match o.ifNotArchivedWithinBetween
       case Some(pair) => Some(Join(pair, ","))
       case None =>
         match o.ifNotArchivedWithin
         case Some(w) => if w == "" then None else Some(w)
         case None => None)
    case OutlinksAvailability => if o.outlinksAvailability == Some(true) then Some("1") else None
    case EmailResult => if o.emailResults == Some(true) then Some("1") else None
    case CaptureCookie =>
      (match o.captureExternalCookies
       case Some(c) => if c == "" then None else Some(c)
       case None => None)
    case UseUserAgent =>
      (match o.captureExternalUserAgent
       case Some(ua) => if ua == "" then None else Some(ua)
       case None => None)
    case TargetUsername =>
      Some(match o.captureTargetAuthorizations
           case Some(Auth(Some(u), _)) => u
           case _ => "")
    case TargetPassword =>
      Some(match o.captureTargetAuthorizations
           case Some(Auth(_, Some(p))) => p
           case _ => "")
  }

  /** The field the table prescribes for `f`: one pair, or nothing. */
  function Emit(o: Options, f: WireField): seq<Field> {
    match Rule(o, f)
    case Some(v) => [(f.Name(), v)]
    case None => []
  }

  /** The body the table prescribes for its first `k` entries: the fields
      at positions below `k` whose rule gives a value, in table order. */
  function Table(o: Options, k: nat): seq<Field>
    requires k <= FieldCount
  {
    if k == 0 then [] else Table(o, k - 1) + Emit(o, FieldAt(k - 1))
  }

  /** The values sent under `name`, in body order. */
  function Occurrences(body: seq<Field>, name: string): seq<string> {
    if |body| == 0 then []
    else (if body[0].0 == name then [body[0].1] else []) + Occurrences(body[1..], name)
  }

  /** Every name is a wire field name, in strictly increasing wire order. */
  predicate InWireOrder(body: seq<Field>) {
    && (forall i :: 0 <= i < |body| ==> NameRank(body[i].0) < FieldCount)
    && (forall i, j :: 0 <= i < j < |body| ==> NameRank(body[i].0) < NameRank(body[j].0))
  }

  lemma {:induction false} OccurrencesAppend(a: seq<Field>, b: seq<Field>, name: string)
    ensures Occurrences(a + b, name) == Occurrences(a, name) + Occurrences(b, name)
  {
    if |a| == 0 {
      assert a + b == b;
    } else {
      assert (a + b)[1..] == a[1..] + b;
      OccurrencesAppend(a[1..], b, name);
    }
  }

  /** The table rules for the leading fields yield exactly what the
      corresponding branches of the encoder append. */
  lemma LeadingRulesMatchBranches(o: Options)
    ensures Emit(o, Url) == [("url", o.url)]
    ensures Emit(o, CaptureAll) == FlagField("capture_all", o.captureAll)
    ensures Emit(o, CaptureOutlinks) == FlagField("capture_outlinks", o.captureOutlinks)
    ensures Emit(o, CaptureScreenshot) == FlagField("capture_screenshot", o.captureScreenshot)
    ensures Emit(o, DelayWbAvailability) == FlagField("delay_wb_availability", o.delayWBAvailability)
  {
  }

  /** The same for the middle fields. */
  lemma MiddleRulesMatchBranches(o: Options)
    ensures Emit(o, ForceGet) == FlagField("force_get", o.forceGet)
    ensures Emit(o, SkipFirstArchive) == FlagField("skip_first_archive", o.skipFirstArchive)
    ensures Emit(o, IfNotArchivedWithin) == FreshnessField(o.ifNotArchivedWithin, o.ifNotArchivedWithinBetween)
    ensures Emit(o, OutlinksAvailability) == FlagField("outlinks_availability", o.outlinksAvailability)
  {
  }

  /** The same for the trailing fields. */
  lemma TrailingRulesMatchBranches(o: Options)
    ensures Emit(o, EmailResult) == FlagField("email_result", o.emailResults)
    ensures Emit(o, CaptureCookie) == TextField("capture_cookie", o.captureExternalCookies)
    ensures Emit(o, UseUserAgent) == TextField("use_user_agent", o.captureExternalUserAgent)
    ensures Emit(o, TargetUsername) + Emit(o, TargetPassword) == CredentialFields(o.captureTargetAuthorizations)
  {
  }

  /** The whole table, unfolded entry by entry. */
  lemma {:induction false} TableUnfolded(o: Options)
    ensures Table(o, FieldCount)
         == Emit(o, Url) + Emit(o, CaptureAll) + Emit(o, CaptureOutlinks) + Emit(o, CaptureScreenshot)
          + Emit(o, DelayWbAvailability) + Emit(o, ForceGet) + Emit(o, SkipFirstArchive)
          + Emit(o, IfNotArchivedWithin) + Emit(o, OutlinksAvailability) + Emit(o, EmailResult)
          + Emit(o, CaptureCookie) + Emit(o, UseUserAgent)
          + (Emit(o, TargetUsername) + Emit(o, TargetPassword))
  {
    assert Table(o, 1) == Emit(o, Url);
    assert Table(o, 2) == Table(o, 1) + Emit(o, CaptureAll);
    assert Table(o, 3) == Table(o, 2) + Emit(o, CaptureOutlinks);
    assert Table(o, 4) == Table(o, 3) + Emit(o, CaptureScreenshot);
    assert Table(o, 5) == Table(o, 4) + Emit(o, DelayWbAvailability);
    assert Table(o, 6) == Table(o, 5) + Emit(o, ForceGet);
    assert Table(o, 7) == Table(o, 6) + Emit(o, SkipFirstArchive);
    assert Table(o, 8) == Table(o, 7) + Emit(o, IfNotArchivedWithin);
    assert Table(o, 9) == Table(o, 8) + Emit(o, OutlinksAvailability);
    assert Table(o, 10) == Table(o, 9) + Emit(o, EmailResult);
    assert Table(o, 11) == Table(o, 10) + Emit(o, CaptureCookie);
    assert Table(o, 12) == Table(o, 11) + Emit(o, UseUserAgent);
    assert Table(o, 13) == Table(o, 12) + Emit(o, TargetUsername);
    assert Table(o, 14) == Table(o, 12) + (Emit(o, TargetUsername) + Emit(o, TargetPassword));
  }

  /** The encoder does what the table says: same fields, same values, same
      order. */
  lemma EncodeFollowsTable(o: Options)
    ensures Encode(o) == Table(o, FieldCount)
  {
    LeadingRulesMatchBranches(o);
    MiddleRulesMatchBranches(o);
    TrailingRulesMatchBranches(o);
    TableUnfolded(o);
  }

  /** One table entry sends field `f` exactly when it is `f`'s entry and
      `f`'s rule gives a value. */
  lemma EmitOccurrences(o: Options, g: WireField, f: WireField)
    ensures Occurrences(Emit(o, g), f.Name())
         == if g == f && Rule(o, f).Some? then [Rule(o, f).value] else []
  {
  }

  /** Within its first `k` entries, the table sends field `f` at most once,
      with the rule's value, and only when `f` sits before `k`. */
  lemma {:induction false} TableOccurrences(o: Options, k: nat, f: WireField)
    requires k <= FieldCount
    ensures Occurrences(Table(o, k), f.Name())
         == if f.Rank() < k && Rule(o, f).Some? then [Rule(o, f).value] else []
  {
    if k > 0 {
      var g := FieldAt(k - 1);
      TableOccurrences(o, k - 1, f);
      EmitOccurrences(o, g, f);
      OccurrencesAppend(Table(o, k - 1), Emit(o, g), f.Name());
    }
  }

  /** A table entry never sends a name that is no wire field. */
  lemma EmitOmitsOtherNames(o: Options, g: WireField, name: string)
    requires NameRank(name) == FieldCount
    ensures Occurrences(Emit(o, g), name) == []
  {
  }

  /** A name that is no wire field is never sent. */
  lemma {:induction false} TableOmitsOtherNames(o: Options, k: nat, name: string)
    requires k <= FieldCount
    requires NameRank(name) == FieldCount
    ensures Occurrences(Table(o, k), name) == []
  {
    if k > 0 {
      TableOmitsOtherNames(o, k - 1, name);
      EmitOmitsOtherNames(o, FieldAt(k - 1), name);
      OccurrencesAppend(Table(o, k - 1), Emit(o, FieldAt(k - 1)), name);
    }
  }

  /** The first `k` table entries emit names in strictly increasing
      position, all before `k`. */
  lemma {:induction false} TableOrdered(o: Options, k: nat)
    requires k <= FieldCount
    ensures InWireOrder(Table(o, k))
    ensures forall i :: 0 <= i < |Table(o, k)| ==> NameRank(Table(o, k)[i].0) < k
  {
    if k > 0 {
      TableOrdered(o, k - 1);
      NameRankOfField(FieldAt(k - 1));
    }
  }

  /** Field names appear in the fixed relative order of the wire table; in
      particular no name is sent twice. */
  lemma EncodeInWireOrder(o: Options)
    ensures InWireOrder(Encode(o))
    ensures forall i, j :: 0 <= i < j < |Encode(o)| ==> Encode(o)[i].0 != Encode(o)[j].0
  {
    EncodeFollowsTable(o);
    TableOrdered(o, FieldCount);
  }

  /** Every wire field is sent exactly as its rule says: once with the
      rule's value, or not at all; no other name is ever sent. */
  lemma EncodeOccurrences(o: Options, f: WireField)
    ensures Occurrences(Encode(o), f.Name())
         == if Rule(o, f).Some? then [Rule(o, f).value] else []
  {
    EncodeFollowsTable(o);
    TableOccurrences(o, FieldCount, f);
  }

  /** A name outside the wire table never appears in the body. */
  lemma EncodeOmitsOtherNames(o: Options, name: string)
    requires NameRank(name) == FieldCount
    ensures Occurrences(Encode(o), name) == []
  {
    EncodeFollowsTable(o);
    TableOmitsOtherNames(o, FieldCount, name);
  }

  /** The boolean modifier behind a flag field. */
  function FlagOption(o: Options, f: WireField): Option<bool>
    requires f.IsFlag()
  {
    match f
    case CaptureAll => o.captureAll
    case CaptureOutlinks => o.captureOutlinks
    case CaptureScreenshot => o.captureScreenshot
    case DelayWbAvailability => o.delayWBAvailability
    case ForceGet => o.forceGet
    case SkipFirstArchive => o.skipFirstArchive
    case OutlinksAvailability => o.outlinksAvailability
    case EmailResult => o.emailResults
  }

  /** Each of the eight boolean modifiers: a present `true` yields exactly
      one field valued `"1"`; `false` or absent yields no field. */
  lemma BooleanModifier(o: Options, f: WireField)
    requires f.IsFlag()
    ensures Occurrences(Encode(o), f.Name()) == if FlagOption(o, f) == Some(true) then ["1"] else []
  {
    EncodeOccurrences(o, f);
  }

  /** A field's value is among the values sent under its name. */
  lemma {:induction false} FieldInOccurrences(body: seq<Field>, i: nat)
    requires i < |body|
    ensures body[i].1 in Occurrences(body, body[i].0)
  {
    if i > 0 {
      FieldInOccurrences(body[1..], i - 1);
    }
  }

  /** The `|| '0'` fallbacks are dead: every boolean field is valued "1". */
  lemma NoZeroFlag(o: Options, i: nat, f: WireField)
    requires i < |Encode(o)|
    requires f.IsFlag() && Encode(o)[i].0 == f.Name()
    ensures Encode(o)[i].1 == "1"
  {
    FieldInOccurrences(Encode(o), i);
    EncodeOccurrences(o, f);
  }

  /** The freshness window is sent at most once: the joined array when the
      array form is present (even empty, giving ""), else a non-empty single
      form verbatim, else not at all. */
  lemma FreshnessPrecedence(o: Options)
    ensures o.ifNotArchivedWithinBetween.Some? ==>
      Occurrences(Encode(o), "if_not_archived_within") == [Join(o.ifNotArchivedWithinBetween.value, ",")]
    ensures o.ifNotArchivedWithinBetween == Some([]) ==>
      Occurrences(Encode(o), "if_not_archived_within") == [""]
    ensures o.ifNotArchivedWithinBetween.None? && o.ifNotArchivedWithin.Some? && o.ifNotArchivedWithin.value != "" ==>
      Occurrences(Encode(o), "if_not_archived_within") == [o.ifNotArchivedWithin.value]
    ensures o.ifNotArchivedWithinBetween.None? && (o.ifNotArchivedWithin.None? || o.ifNotArchivedWithin == Some("")) ==>
      Occurrences(Encode(o), "if_not_archived_within") == []
  {
    EncodeOccurrences(o, IfNotArchivedWithin);
  }

  /** The external cookie is sent, unchanged, exactly when non-empty. */
  lemma CookieField(o: Options)
    ensures Occurrences(Encode(o), "capture_cookie")
         == if o.captureExternalCookies.Some? && o.captureExternalCookies.value != ""
            then [o.captureExternalCookies.value] else []
  {
    EncodeOccurrences(o, CaptureCookie);
  }

  /** The external user agent is sent, unchanged, exactly when non-empty. */
  lemma UserAgentField(o: Options)
    ensures Occurrences(Encode(o), "use_user_agent")
         == if o.captureExternalUserAgent.Some? && o.captureExternalUserAgent.value != ""
            then [o.captureExternalUserAgent.value] else []
  {
    EncodeOccurrences(o, UseUserAgent);
  }

  /** The body always ends with the credential pair, each half carrying the
      supplied value or "" — also when no credential object was given. */
  lemma CredentialsAlwaysLast(o: Options)
    ensures var body := Encode(o);
      && body[|body| - 2] == ("target_username", o.captureTargetAuthorizations.GetOr(Auth(None, None)).username.GetOr(""))
      && body[|body| - 1] == ("target_password", o.captureTargetAuthorizations.GetOr(Auth(None, None)).password.GetOr(""))
    ensures o.captureTargetAuthorizations.None? ==>
      Encode(o)[|Encode(o)| - 2..] == [("target_username", ""), ("target_password", "")]
  {
  }

  /** `{url: "https://example.com", captureAll: true}` encodes to the URL,
      `capture_all=1` and the two empty credential fields. */
  lemma CaptureAllExample()
    ensures Encode(UrlOnly("https://example.com").(captureAll := Some(true)))
         == [("url", "https://example.com"), ("capture_all", "1"),
             ("target_username", ""), ("target_password", "")]
  {
  }

  /** Credentials `{username: "u"}` encode `target_username=u` and an empty
      `target_password`. */
  lemma PartialCredentialsExample()
    ensures Encode(UrlOnly("https://a").(captureTargetAuthorizations := Some(Auth(Some("u"), None))))
         == [("url", "https://a"), ("target_username", "u"), ("target_password", "")]
  {
  }
}
