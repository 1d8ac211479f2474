/** Normalisation of the `--host` flag into the base URL of the management
    API (main.go:43-49): a scheme is added when the flag does not begin
    with "http", and a value ending in '/' is trimmed of every leading and
    trailing '/'. */
module Host {
  import opened Strings

  /** The scheme prepended to a host given without one. */
  const Scheme: string := "http://"

  /** `strings.TrimLeft(s, "/")`. */
  function TrimLeftSlashes(s: string): (r: string)
    ensures HasSuffix(s, r)
    ensures forall i :: 0 <= i < |s| - |r| ==> s[i] == '/'
    ensures |r| == 0 || r[0] != '/'
    decreases |s|
  {
    if |s| > 0 && s[0] == '/' then TrimLeftSlashes(s[1..]) else s
  }

  /** `strings.TrimRight(s, "/")`. */
  function TrimRightSlashes(s: string): (r: string)
    ensures HasPrefix(s, r)
    ensures forall i :: |r| <= i < |s| ==> s[i] == '/'
    ensures |r| == 0 || r[|r| - 1] != '/'
    decreases |s|
  {
    if |s| > 0 && s[|s| - 1] == '/' then TrimRightSlashes(s[..|s| - 1]) else s
  }

  /** `strings.Trim(s, "/")`: every leading and every trailing '/' goes,
      not just one. */
  function TrimSlashes(s: string): (r: string)
    ensures |r| <= |s|
    ensures |r| == 0 || (r[0] != '/' && r[|r| - 1] != '/')
    ensures |s| > 0 && s[0] != '/' ==> HasPrefix(s, r) && forall i :: |r| <= i < |s| ==> s[i] == '/'
    ensures HasPrefix(TrimLeftSlashes(s), r)
    ensures forall i :: |r| <= i < |TrimLeftSlashes(s)| ==> TrimLeftSlashes(s)[i] == '/'
  {
    TrimRightSlashes(TrimLeftSlashes(s))
  }

  /** The scheme step, main.go:44-46. */
  function AddScheme(host: string): (r: string)
    ensures HasPrefix(r, "http")
    ensures r == host <==> HasPrefix(host, "http")
    ensures HasSuffix(r, host)
    ensures !HasPrefix(host, "http") ==> HasPrefix(r, Scheme) && |r| == |Scheme| + |host|
  {
    if HasPrefix(host, "http") then host else Scheme + host
  }

  /** The whole normalisation, main.go:43-49. The result is the
      scheme-prefixed host with its trailing slashes cut off and nothing
      else changed. */
  function Normalize(host: string): (r: string)
    ensures HasPrefix(r, "http")
    ensures !HasSuffix(r, "/")
    ensures HasPrefix(AddScheme(host), r)
    ensures forall i :: |r| <= i < |AddScheme(host)| ==> AddScheme(host)[i] == '/'
    ensures !HasSuffix(AddScheme(host), "/") ==> r == AddScheme(host)
  {
    var withScheme := AddScheme(host);
    if HasSuffix(withScheme, "/") then
      TrimKeepsScheme(withScheme);
      TrimSlashes(withScheme)
    else
      LastCharOfNonSlashSuffix(withScheme);
      withScheme
  }

  /** Trimming a string that begins with "http" only removes its trailing
      slashes, so the "http" stays. */
  lemma TrimKeepsScheme(w: string)
    requires HasPrefix(w, "http")
    ensures HasPrefix(TrimSlashes(w), "http")
    ensures !HasSuffix(TrimSlashes(w), "/")
    ensures HasPrefix(w, TrimSlashes(w))
    ensures forall i :: |TrimSlashes(w)| <= i < |w| ==> w[i] == '/'
  {
    var r := TrimSlashes(w);
    assert w[3] == "http"[3] == 'p';
    assert w[0] == 'h';
    assert |r| >= 4;
    assert r[..4] == w[..4];
  }

  /** Normalising an already normalised base URL changes nothing. */
  lemma NormalizeIdempotent(host: string)
    ensures Normalize(Normalize(host)) == Normalize(host)
  {
  }

  /** A host that already names a scheme and has no trailing '/' is used
      as given; one without a scheme gains exactly "http://". */
  lemma NormalizeKeepsCleanHosts(host: string)
    requires !HasSuffix(host, "/") && host != ""
    ensures HasPrefix(host, "http") ==> Normalize(host) == host
    ensures !HasPrefix(host, "http") ==> Normalize(host) == Scheme + host
  {
    LastCharOfNonSlashSuffix(host);
    assert host + Slashes(0) == host;
    NormalizeCutsTrailingSlashes(host, 0);
  }

  /** `k` slashes. */
  function Slashes(k: nat): (s: string)
    ensures |s| == k
    ensures forall i :: 0 <= i < k ==> s[i] == '/'
  {
    seq(k, _ => '/')
  }

  /** Trailing slashes never decide the scheme test, since "http" holds
      no '/'. */
  lemma SchemeTestIgnoresSlashes(h: string, k: nat)
    ensures HasPrefix(h + Slashes(k), "http") <==> HasPrefix(h, "http")
  {
    var t := h + Slashes(k);
    if |h| >= 4 {
      assert t[..4] == h[..4];
    } else if |t| >= 4 {
      assert t[..4][|h|] == '/';
      assert "http"[|h|] != '/';
    }
  }

  /** However many '/' trail a host, all of them are cut: the result is
      what the host without them would give. */
  lemma NormalizeCutsTrailingSlashes(h: string, k: nat)
    requires |h| > 0 && h[|h| - 1] != '/'
    ensures Normalize(h + Slashes(k)) == AddScheme(h)
  {
    SchemeTestIgnoresSlashes(h, k);
    var w := AddScheme(h + Slashes(k));
    var r := AddScheme(h);
    assert w == r + Slashes(k);
    assert r[|r| - 1] == h[|h| - 1];
    assert HasPrefix(w, r);
    var n := Normalize(h + Slashes(k));
    LastCharOfNonSlashSuffix(n);
    TrimmedPrefixUnique(w, n, r);
  }

  /** Worked cases: a single trailing '/' is cut and the scheme added; a
      run of them is cut whole, not one at a time. */
  lemma NormalizeExamples()
    ensures Normalize("myhost:8083/") == "http://myhost:8083"
    ensures Normalize("myhost:8083//") == "http://myhost:8083"
  {
    var h := "myhost:8083";
    assert h[0] != "http"[0];
    assert Scheme + h == "http://myhost:8083";
    assert h + Slashes(1) == "myhost:8083/";
    assert h + Slashes(2) == "myhost:8083//";
    NormalizeCutsTrailingSlashes(h, 1);
    NormalizeCutsTrailingSlashes(h, 2);
  }

  /** Worked case: an empty flag degenerates to "http:", because the '/'
      characters of the added scheme are trimmed as well. */
  lemma NormalizeEmptyHost()
    ensures Normalize("") == "http:"
  {
    var w := "http://";
    NormalizeSlashCase("", w, w[..5]);
  }

  /** Normalize on a host whose scheme-prefixed form `w` is `r` followed
      by one or more '/' and `r` ends in something else. */
  lemma NormalizeSlashCase(host: string, w: string, r: string)
    requires AddScheme(host) == w
    requires |r| > 0 && r[|r| - 1] != '/' && |r| < |w| && HasPrefix(w, r)
    requires forall i :: |r| <= i < |w| ==> w[i] == '/'
    ensures Normalize(host) == r
  {
    var n := Normalize(host);
    LastCharOfNonSlashSuffix(n);
    TrimmedPrefixUnique(w, n, r);
  }

  /** At most one prefix of `w` that does not end in '/' is followed by
      nothing but '/'. */
  lemma TrimmedPrefixUnique(w: string, a: string, b: string)
    requires HasPrefix(w, a) && HasPrefix(w, b)
    requires forall i :: |a| <= i < |w| ==> w[i] == '/'
    requires forall i :: |b| <= i < |w| ==> w[i] == '/'
    requires |a| > 0 && a[|a| - 1] != '/'
    requires |b| > 0 && b[|b| - 1] != '/'
    ensures a == b
  {
  }

  /** As written, the scheme test is a plain prefix test on "http", so a
      host whose name starts with those letters is taken to carry a scheme
      and is left without one. */
  lemma AddSchemeMissesHttpHostnames()
    ensures AddScheme("httpbin:8083") == "httpbin:8083"
    ensures !HasPrefix(AddScheme("httpbin:8083"), "http://")
    ensures !HasPrefix(AddScheme("httpbin:8083"), "https://")
  {
    var h := "httpbin:8083";
    assert h[..4] == "http";
    assert h[4] != "http://"[4];
    assert h[4] != "https://"[4];
  }

  /** The scheme step as evidently intended: a host counts as carrying a
      scheme only when it begins with "http://" or "https://". */
  function AddSchemeStrict(host: string): (r: string)
    ensures HasPrefix(r, "http://") || HasPrefix(r, "https://")
    ensures r == host <==> HasPrefix(host, "http://") || HasPrefix(host, "https://")
    ensures HasSuffix(r, host)
    ensures r != host ==> HasPrefix(r, Scheme) && |r| == |Scheme| + |host|
  {
    if HasPrefix(host, "http://") || HasPrefix(host, "https://") then host else Scheme + host
  }

  /** The corrected step is idempotent and differs from the written one
      only on hosts that begin with "http" but carry no scheme. */
  lemma AddSchemeStrictAgrees(host: string)
    ensures AddSchemeStrict(AddSchemeStrict(host)) == AddSchemeStrict(host)
    ensures AddSchemeStrict(host) == AddScheme(host)
      <==> !HasPrefix(host, "http") || HasPrefix(host, "http://") || HasPrefix(host, "https://")
  {
    if HasPrefix(host, "http") && !HasPrefix(host, "http://") && !HasPrefix(host, "https://") {
      assert |AddSchemeStrict(host)| != |AddScheme(host)|;
    }
  }
}
