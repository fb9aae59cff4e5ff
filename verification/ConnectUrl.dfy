/**
 Which backend the parameters select, and the two validators of a Custom URL: the Python one in
 `connect_backend.py` and the shell one in `launch_env.sh`, meant to accept the same values.
 */
module ConnectUrl {
  import opened Wrappers

  const SCHEME := "https://"

  datatype Backend = BackendPnw | BackendKonik | BackendCustom | BackendOffline

  /** What `int(raw)` makes of the ConnectBackend parameter. */
  datatype IndexParam = Unset | EmptyText | Index(value: int) | NotANumber

  datatype Selector = Selector(index: IndexParam, url: Option<string>)

  /** Python's `str.isspace` for a single character. */
  predicate PythonSpace(c: char) {
    || '\t' <= c <= '\r' || '\U{1c}' <= c <= ' ' || c == '\U{85}' || c == '\U{a0}' || c == '\U{1680}'
    || '\U{2000}' <= c <= '\U{200a}' || c == '\U{2028}' || c == '\U{2029}' || c == '\U{202f}'
    || c == '\U{205f}' || c == '\U{3000}'
  }

  /** `[[:space:]]` in the C locale. */
  predicate ShellSpace(c: char) {
    '\t' <= c <= '\r' || c == ' '
  }

  predicate Trimmed(s: string, space: char -> bool) {
    s == "" || (!space(s[0]) && !space(s[|s| - 1]))
  }

  /** `s` without its trailing run of `c`. */
  function StripRight(s: string, c: char): (r: string)
    ensures r <= s
    ensures forall i :: |r| <= i < |s| ==> s[i] == c
    ensures r != "" ==> r[|r| - 1] != c
  {
    if s != "" && s[|s| - 1] == c then StripRight(s[..|s| - 1], c) else s
  }

  predicate StartsWith(s: string, prefix: string) {
    prefix <= s
  }

  /** The text before the first slash. */
  function UpToSlash(s: string): string {
    if s == "" || s[0] == '/' then "" else [s[0]] + UpToSlash(s[1..])
  }

  function RemovePrefix(s: string, prefix: string): string {
    if StartsWith(s, prefix) then s[|prefix|..] else s
  }

  function Host(url: string): string {
    UpToSlash(RemovePrefix(url, SCHEME))
  }

  function CustomUrl(sel: Selector): string {
    if sel.url.Some? then StripRight(sel.url.value, '/') else ""
  }

  predicate ValidCustomUrl(url: string) {
    Trimmed(url, PythonSpace) && StartsWith(url, SCHEME) && |Host(url)| > 0
  }

  function ConnectBackendOf(sel: Selector): Backend {
    var idx := if sel.index.Index? then sel.index.value else 0;
    if idx == 1 then BackendKonik
    else if idx == 2 then if ValidCustomUrl(CustomUrl(sel)) then BackendCustom else BackendPnw
    else if idx == 3 then BackendOffline
    else BackendPnw
  }

  function DropNuls(s: string): string {
    if s == "" then "" else if s[0] == '\0' then DropNuls(s[1..]) else [s[0]] + DropNuls(s[1..])
  }

  /** What `$(cat ...)` makes of a stored value: without NULs, and then without trailing newlines. */
  function ShellText(raw: string): string {
    StripRight(DropNuls(raw), '\n')
  }

  predicate EndsInSpace(s: string, space: char -> bool) {
    s != "" && space(s[|s| - 1])
  }

  /** The shell's acceptance test for the same raw parameter. */
  predicate ShellAccepts(raw: string) {
    var value := ShellText(raw);
    && Trimmed(value, ShellSpace)
    && RemovePrefix(value, SCHEME) != value
    && |Host(value)| > 0
  }

  predicate PythonAccepts(raw: string) {
    ValidCustomUrl(StripRight(raw, '/'))
  }

  /** White space, or a newline the shell never sees, right before the trailing slashes. */
  predicate PaddedBeforeSlashes(raw: string) {
    EndsInSpace(StripRight(raw, '/'), PythonSpace)
  }

  /** Without its NULs the value has no host, or ends in white space. */
  predicate NulsHideFault(raw: string) {
    '\0' in raw && (Host(ShellText(raw)) == "" || EndsInSpace(ShellText(raw), ShellSpace))
  }

  lemma HostNonEmpty(url: string)
    ensures |Host(url)| > 0 <==> (var rest := RemovePrefix(url, SCHEME); rest != "" && rest[0] != '/')
  {
  }

  lemma ConcatFront(a: string, b: string)
    requires a != ""
    ensures (a + b)[0] == a[0] && (a + b)[1..] == a[1..] + b
  {
  }

  lemma {:induction false} DropNulsConcat(a: string, b: string)
    ensures DropNuls(a + b) == DropNuls(a) + DropNuls(b)
    decreases |a|
  {
    if a == "" {
      assert a + b == b;
    } else {
      ConcatFront(a, b);
      DropNulsConcat(a[1..], b);
    }
  }

  lemma {:induction false} DropNulsKeeps(s: string)
    requires '\0' !in s
    ensures DropNuls(s) == s
  {
    if s != "" { DropNulsKeeps(s[1..]); }
  }

  /** The rest of a value begins for the shell as it does for Python, unless it begins with NULs. */
  lemma {:induction false} FirstSeen(rest: string)
    requires DropNuls(rest) != "" && DropNuls(rest)[0] != '/'
    ensures rest != "" && rest[0] != '/'
  {
  }

  /** A value that begins with the scheme also does for the shell. */
  lemma SchemeSeen(raw: string)
    requires StartsWith(raw, SCHEME)
    ensures DropNuls(raw) == SCHEME + DropNuls(raw[|SCHEME|..]) && StartsWith(ShellText(raw), SCHEME)
  {
    assert raw == SCHEME + raw[|SCHEME|..];
    DropNulsConcat(SCHEME, raw[|SCHEME|..]);
    DropNulsKeeps(SCHEME);
    var c := DropNuls(raw);
    assert c[|SCHEME| - 1] == '/' && |ShellText(raw)| >= |SCHEME|;
  }

  lemma PythonParts(raw: string)
    requires PythonAccepts(raw)
    ensures StartsWith(raw, SCHEME) && |raw| > |SCHEME| && raw[|SCHEME|] != '/' && !PaddedBeforeSlashes(raw)
  {
    var u := StripRight(raw, '/');
    HostNonEmpty(u);
    assert u[..|SCHEME|] == SCHEME && raw[..|SCHEME|] == u[..|SCHEME|];
    assert raw[|SCHEME|] == u[|SCHEME|];
  }

  /** Past the scheme the shell looks for a host and for white space at the end. */
  lemma ShellPastScheme(raw: string)
    requires StartsWith(raw, SCHEME)
    ensures ShellAccepts(raw) <==> Host(ShellText(raw)) != "" && !EndsInSpace(ShellText(raw), ShellSpace)
  {
    SchemeSeen(raw);
    var v := ShellText(raw);
    assert v[0] == 'h' && RemovePrefix(v, SCHEME) == v[|SCHEME|..];
  }

  lemma PlainIsSound(raw: string)
    requires PythonAccepts(raw) && '\0' !in raw
    ensures Host(ShellText(raw)) != "" && !EndsInSpace(ShellText(raw), ShellSpace)
  {
    PythonParts(raw);
    DropNulsKeeps(raw);
    var u := StripRight(raw, '/');
    assert raw[|raw| - 1] == '/' || raw == u;
    assert ShellText(raw) == raw;
    HostNonEmpty(raw);
  }

  /** A value Python accepts is accepted by the shell as well, exactly unless its NULs hide a fault. */
  lemma PythonImpliesShell(raw: string)
    requires PythonAccepts(raw)
    ensures ShellAccepts(raw) <==> !NulsHideFault(raw)
    ensures !PaddedBeforeSlashes(raw) && StartsWith(raw, SCHEME)
  {
    PythonParts(raw);
    ShellPastScheme(raw);
    if '\0' !in raw { PlainIsSound(raw); }
  }

  /** A value the shell accepts is accepted by Python as well, unless it is padded or a NUL splits its scheme. */
  lemma ShellOnlyIsPadded(raw: string)
    requires ShellAccepts(raw)
    ensures PythonAccepts(raw) <==> !PaddedBeforeSlashes(raw) && StartsWith(raw, SCHEME)
  {
    var u, v := StripRight(raw, '/'), ShellText(raw);
    if StartsWith(raw, SCHEME) && !PaddedBeforeSlashes(raw) {
      SchemeSeen(raw);
      HostNonEmpty(v);
      var rest := raw[|SCHEME|..];
      assert DropNuls(raw)[|SCHEME|] == v[|SCHEME|] == DropNuls(rest)[0];
      FirstSeen(rest);
      assert raw[|SCHEME|] == rest[0] && |u| > |SCHEME|;
      assert u[..|SCHEME|] == raw[..|SCHEME|] == SCHEME && u[|SCHEME|] == raw[|SCHEME|];
      HostNonEmpty(u);
      assert u[0] == 'h';
    } else if PythonAccepts(raw) {
      PythonImpliesShell(raw);
    }
  }

  /** The exact values on which the two validators agree. */
  lemma ValidatorsAgreeIff(raw: string)
    ensures PythonAccepts(raw) == ShellAccepts(raw) <==>
              && !(ShellAccepts(raw) && (PaddedBeforeSlashes(raw) || !StartsWith(raw, SCHEME)))
              && !(PythonAccepts(raw) && NulsHideFault(raw))
    ensures '\0' !in raw ==>
              (PythonAccepts(raw) == ShellAccepts(raw) <==> !(ShellAccepts(raw) && PaddedBeforeSlashes(raw)))
  {
    if PythonAccepts(raw) { PythonImpliesShell(raw); }
    if ShellAccepts(raw) { ShellOnlyIsPadded(raw); }
    if '\0' !in raw && ShellAccepts(raw) {
      DropNulsKeeps(raw);
      var v := ShellText(raw);
      assert v[..|SCHEME|] == raw[..|SCHEME|];
    }
  }

  /** A stored value that only the shell accepts. */
  lemma ValidatorsCanDisagree() returns (raw: string)
    ensures raw == "https://h /" && ShellAccepts(raw) && !PythonAccepts(raw)
  {
    raw := "https://h /";
    DropNulsKeeps(raw);
    assert StripRight(raw, '\n') == raw;
    assert RemovePrefix(raw, SCHEME) == "h /";
    HostNonEmpty(raw);
    assert raw[..10] == "https://h ";
    assert StripRight(raw, '/') == StripRight(raw[..10], '/') == "https://h ";
  }

  /** And one that only Python accepts: its host is a NUL. */
  lemma ValidatorsCanDisagreeOnNul() returns (raw: string)
    ensures raw == "https://\0" && PythonAccepts(raw) && !ShellAccepts(raw)
  {
    raw := "https://\0";
    assert StripRight(raw, '/') == raw && RemovePrefix(raw, SCHEME) == "\0";
    HostNonEmpty(raw);
    SchemeSeen(raw);
    NulIsNoHost(raw);
    ShellPastScheme(raw);
  }

  lemma NulIsNoHost(raw: string)
    requires StartsWith(raw, SCHEME) && raw[|SCHEME|..] == "\0"
    ensures Host(ShellText(raw)) == ""
  {
    SchemeSeen(raw);
    assert DropNuls("\0") == "";
    assert DropNuls(raw) == SCHEME;
    assert RemovePrefix(SCHEME, SCHEME) == "";
  }

  /** The documented default: only index 1, 2 with a usable URL, or 3 leaves the PNW backend. */
  lemma PnwIsTheDefault(sel: Selector)
    ensures ConnectBackendOf(sel) == BackendPnw <==>
            || !sel.index.Index?
            || sel.index.value !in {1, 2, 3}
            || (sel.index.value == 2 && !(sel.url.Some? && PythonAccepts(sel.url.value)))
  {
    if sel.url.None? {
      assert !StartsWith("", SCHEME);
    }
  }
}
