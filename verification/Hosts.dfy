/** App host names: printed by the control plane, parsed by the runtime. ASCII only; a byte is the char with its code. */
module Hosts {
  import opened Wrappers

  // ---------- strings

  function LowerChar(c: char): char { if 'A' <= c <= 'Z' then (c as int + 32) as char else c }

  function ToLower(s: string): (r: string)
    ensures |r| == |s| && forall i :: 0 <= i < |s| ==> r[i] == LowerChar(s[i])
  {
    if s == "" then "" else [LowerChar(s[0])] + ToLower(s[1..])
  }

  /** The trailing dot of a fully qualified name. */
  function WithoutDot(s: string): string { if s != "" && s[|s| - 1] == '.' then s[..|s| - 1] else s }

  /** strings.Trim(s, "."). */
  function TrimDots(s: string): string
    decreases |s|
  {
    if s == "" then ""
    else if s[0] == '.' then TrimDots(s[1..])
    else if s[|s| - 1] == '.' then TrimDots(s[..|s| - 1])
    else s
  }

  predicate DashesAt(s: string, i: int) { 0 <= i < |s| - 1 && s[i] == '-' && s[i + 1] == '-' }

  predicate HasDashes(s: string) { exists i :: 0 <= i < |s| && DashesAt(s, i) }

  /** The index of the first two dashes, or the length. */
  function FirstDashes(s: string): (n: nat)
    ensures n <= |s| && (n < |s| ==> DashesAt(s, n)) && forall i :: 0 <= i < n ==> !DashesAt(s, i)
  {
    if s == "" || DashesAt(s, 0) then 0
    else
      assert forall i :: 0 < i < |s| && DashesAt(s, i) ==> DashesAt(s[1..], i - 1);
      1 + FirstDashes(s[1..])
  }

  /** strings.Cut(s, "--"). */
  function Cut(s: string): Option<(string, string)>
  {
    var n := FirstDashes(s);
    if n == |s| then None else Some((s[..n], s[n + 2..]))
  }

  predicate SlugChar(c: char) { 'a' <= c <= 'z' || '0' <= c <= '9' || c == '-' }

  predicate ValidSlug(s: string)
  {
    && 3 <= |s| <= 63
    && s[0] != '-'
    && (forall i :: 0 <= i < |s| ==> SlugChar(s[i]))
    && s[|s| - 1] != '-'
  }

  // ---------- host and port

  function Contains(s: string, c: char): bool { exists i :: 0 <= i < |s| && s[i] == c }

  function LastColon(s: string): (i: int)
    ensures -1 <= i < |s|
    ensures i >= 0 ==> s[i] == ':'
    ensures forall k :: i < k < |s| ==> s[k] != ':'
  {
    if s == "" then -1 else if s[|s| - 1] == ':' then |s| - 1 else LastColon(s[..|s| - 1])
  }

  function Index(s: string, c: char): (i: nat)
    ensures i <= |s| && (i < |s| ==> s[i] == c) && forall k :: 0 <= k < i ==> s[k] != c
  {
    if s == "" || s[0] == c then 0 else 1 + Index(s[1..], c)
  }

  /** The host of net.SplitHostPort, if it finds a port. */
  function HostOf(s: string): Option<string>
  {
    var i := LastColon(s);
    if i < 0 then None
    else if s[0] == '[' then
      var end := Index(s, ']');
      if end + 1 != i || Contains(s[1..], '[') || Contains(s[end + 1..], ']') then None else Some(s[1..end])
    else if Contains(s[..i], ':') || Contains(s, '[') || Contains(s, ']') then None
    else Some(s[..i])
  }

  /** What ParseHost compares: the name without port and trailing dot, in lower case. */
  function Normalized(host: string): string
  {
    var name := HostOf(host);
    WithoutDot(ToLower(if name.Some? then name.value else host))
  }

  // ---------- print and parse

  function PrintHost(app: string, tenant: string, suffix: string): string { app + "--" + tenant + "." + TrimDots(suffix) }

  function WithPort(host: string, port: string): string { if port == "" then host else host + ":" + port }

  function ParseHost(host: string, suffix: string): Option<(string, string)>
  {
    var name := Normalized(host);
    var tail := "." + TrimDots(ToLower(suffix));
    if tail == "." || |name| < |tail| || name[|name| - |tail|..] != tail then None
    else
      match Cut(name[..|name| - |tail|])
      case None => None
      case Some((app, tenant)) =>
        if HasDashes(app) || !ValidSlug(app) || !ValidSlug(tenant) then None else Some((app, tenant))
  }

  /** No character that SplitHostPort treats specially. */
  predicate PlainName(s: string) { !Contains(s, ':') && !Contains(s, '[') && !Contains(s, ']') }

  lemma {:induction false} PortIsDropped(name: string, port: string)
    requires PlainName(name) && PlainName(port)
    ensures HostOf(name).None? && HostOf(name + ":" + port) == Some(name)
  {
    var s := name + ":" + port;
    assert LastColon(name) < 0;
    forall i | |name| < i < |s| ensures s[i] != ':' { assert s[i] == port[i - |name| - 1]; }
    assert s[|name|] == ':';
    assert s[..|name|] == name;
    forall i | 0 <= i < |s| ensures s[i] != '[' && s[i] != ']' {
      if i < |name| { assert s[i] == name[i]; } else if i > |name| { assert s[i] == port[i - |name| - 1]; }
    }
  }

  lemma {:induction false} TrimmedDots(s: string)
    ensures var t := TrimDots(s); t != "" ==> t[0] != '.' && t[|t| - 1] != '.'
    ensures TrimDots(ToLower(s)) == ToLower(TrimDots(s))
    ensures PlainName(s) ==> PlainName(TrimDots(s))
    decreases |s|
  {
    if s != "" {
      if s[0] == '.' {
        assert ToLower(s)[1..] == ToLower(s[1..]);
        if PlainName(s) { PlainPart(s, 1, |s|); }
        TrimmedDots(s[1..]);
      } else if s[|s| - 1] == '.' {
        assert ToLower(s)[..|s| - 1] == ToLower(s[..|s| - 1]);
        if PlainName(s) { PlainPart(s, 0, |s| - 1); }
        TrimmedDots(s[..|s| - 1]);
      }
    }
  }

  lemma {:induction false} PlainPart(s: string, i: nat, j: nat)
    requires i <= j <= |s| && PlainName(s)
    ensures PlainName(s[i..j])
  {
    var part := s[i..j];
    forall k | 0 <= k < |part| ensures part[k] != ':' && part[k] != '[' && part[k] != ']' { assert part[k] == s[i + k]; }
  }

  /** The first two dashes of a printed name stand where the app slug ends, exactly when the slug has none itself. */
  lemma {:induction false} CutPrinted(app: string, tenant: string)
    requires app != "" && app[|app| - 1] != '-'
    ensures !HasDashes(app) <==> Cut(app + "--" + tenant) == Some((app, tenant))
  {
    var name := app + "--" + tenant;
    assert DashesAt(name, |app|);
    var n := FirstDashes(name);
    forall i | 0 <= i < |app| ensures DashesAt(app, i) <==> DashesAt(name, i) {
    }
    if n == |app| {
      assert name[..n] == app && name[n + 2..] == tenant;
    } else {
      assert DashesAt(app, n);
      assert |name[..n]| != |app|;
    }
  }

  lemma {:induction false} LowerSlug(s: string)
    requires ValidSlug(s)
    ensures ToLower(s) == s && PlainName(s) && s != ""
  {
  }

  lemma {:induction false} PlainConcat(a: string, b: string)
    requires PlainName(a) && PlainName(b)
    ensures PlainName(a + b) && ToLower(a + b) == ToLower(a) + ToLower(b)
  {
    forall i | 0 <= i < |a + b| ensures (a + b)[i] != ':' && (a + b)[i] != '[' && (a + b)[i] != ']' {
      if i < |a| { assert (a + b)[i] == a[i]; } else { assert (a + b)[i] == b[i - |a|]; }
    }
  }

  /** A printed host, with or without a port, is read in lower case without the port. */
  lemma {:induction false} PrintedName(app: string, tenant: string, suffix: string, port: string)
    requires ValidSlug(app) && ValidSlug(tenant) && TrimDots(suffix) != "" && PlainName(suffix) && PlainName(port)
    ensures Normalized(WithPort(PrintHost(app, tenant, suffix), port)) == app + "--" + tenant + "." + TrimDots(ToLower(suffix))
  {
    hide ToLower, TrimDots, PlainName, HostOf, ValidSlug;
    var host, trimmed := PrintHost(app, tenant, suffix), TrimDots(suffix);
    TrimmedDots(suffix);
    LowerSlug(app);
    LowerSlug(tenant);
    PlainDashes();
    PlainConcat(app, "--");
    PlainConcat(app + "--", tenant);
    PlainConcat(app + "--" + tenant, ".");
    PlainConcat(app + "--" + tenant + ".", trimmed);
    PortIsDropped(host, port);
    assert host[|host| - 1] == trimmed[|trimmed| - 1];
    LowerEnd(host);
  }

  lemma {:induction false} PlainDashes()
    ensures PlainName("--") && PlainName(".") && ToLower("--") == "--" && ToLower(".") == "."
  {
  }

  lemma {:induction false} LowerEnd(s: string)
    requires s != "" && s[|s| - 1] != '.'
    ensures WithoutDot(ToLower(s)) == ToLower(s)
  {
  }

  /**
   The runtime reads back the app and tenant of a printed host, with or without a port, exactly when the app slug
   has no two dashes in a row; the tenant slug may have them.
  */
  lemma {:induction false} ParsePrinted(app: string, tenant: string, suffix: string, port: string)
    requires ValidSlug(app) && ValidSlug(tenant) && TrimDots(suffix) != "" && PlainName(suffix) && PlainName(port)
    ensures ParseHost(WithPort(PrintHost(app, tenant, suffix), port), suffix) == Some((app, tenant)) <==> !HasDashes(app)
  {
    hide ToLower, TrimDots, PlainName, HostOf, Normalized, Cut;
    var name := Normalized(WithPort(PrintHost(app, tenant, suffix), port));
    var tail := "." + TrimDots(ToLower(suffix));
    PrintedName(app, tenant, suffix, port);
    TrimmedDots(suffix);
    assert name == app + "--" + tenant + tail;
    assert name[..|name| - |tail|] == app + "--" + tenant;
    CutPrinted(app, tenant);
  }

  /** Every accepted host is, once normalised, the one printed from what it was read as. */
  lemma {:induction false} PrintParsed(host: string, suffix: string)
    requires ParseHost(host, suffix).Some?
    ensures var (app, tenant) := ParseHost(host, suffix).value;
            && ValidSlug(app) && ValidSlug(tenant) && !HasDashes(app)
            && Normalized(host) == PrintHost(app, tenant, ToLower(suffix))
  {
    hide Normalized, ToLower, TrimDots, ValidSlug, FirstDashes;
    var name, tail := Normalized(host), "." + TrimDots(ToLower(suffix));
    var front := name[..|name| - |tail|];
    var n := FirstDashes(front);
    assert front == front[..n] + "--" + front[n + 2..];
    assert name == front + tail;
  }

  /** So under one suffix, accepted names match app and tenant one to one. */
  lemma {:induction false} OneHostEach(a: string, b: string, suffix: string)
    requires ParseHost(a, suffix).Some? && ParseHost(b, suffix).Some?
    ensures ParseHost(a, suffix) == ParseHost(b, suffix) <==> Normalized(a) == Normalized(b)
  {
    hide Normalized, Cut, ToLower, TrimDots;
    PrintParsed(a, suffix);
    PrintParsed(b, suffix);
  }
}
