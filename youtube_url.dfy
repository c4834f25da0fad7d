/** The URL check of the download API: the one regular expression
      (https?://)?(www\.)?(youtube|youtu|youtube-nocookie)\.(com|be)/
      (watch\?v=|embed/|v/|.+\?v=)?([^&=%\?]{11})
    applied with Python's `re.match`, which anchors the match at the start
    of the string only. `Matches` says declaratively which strings that is;
    `IsValidYoutubeUrl` decides it by a left-to-right scan, and
    `ValidatorCorrect` proves the two agree. */
module YoutubeUrl {

  /** `p` is a prefix of `u`. */
  predicate StartsWith(u: string, p: string) {
    |p| <= |u| && u[..|p|] == p
  }

  lemma StartsWithConcat(u: string, p: string, q: string)
    ensures StartsWith(u, p + q) <==> StartsWith(u, p) && StartsWith(u[|p|..], q)
  {
    if StartsWith(u, p) && StartsWith(u[|p|..], q) {
      assert u[..|p + q|] == u[..|p|] + u[|p|..][..|q|];
    }
    if StartsWith(u, p + q) {
      assert u[..|p|] == (p + q)[..|p|];
      assert u[|p|..][..|q|] == (p + q)[|p|..];
    }
  }

  // The parts of the pattern, each as the set of strings it matches.

  predicate IsScheme(x: string) { x == "" || x == "http://" || x == "https://" }

  predicate IsWww(x: string) { x == "" || x == "www." }

  predicate IsHost(x: string) { x == "youtube" || x == "youtu" || x == "youtube-nocookie" }

  predicate IsTld(x: string) { x == "com" || x == "be" }

  /** No line feed: the characters the regular-expression dot may match. */
  predicate NoNewline(t: string) {
    forall i :: 0 <= i < |t| ==> t[i] != '\n'
  }

  /** `.+\?v=`: one or more non-newline characters, then `?v=`. */
  predicate IsQueryPath(x: string) {
    |x| >= 4 && x[|x| - 3..] == "?v=" && NoNewline(x[..|x| - 3])
  }

  /** The optional path group, including its absence. */
  predicate IsPath(x: string) {
    x == "" || x == "watch?v=" || x == "embed/" || x == "v/" || IsQueryPath(x)
  }

  /** `[^&=%\?]`: any character but these four (a line feed included). */
  predicate IsIdChar(c: char) {
    c != '&' && c != '=' && c != '%' && c != '?'
  }

  /** `[^&=%\?]{11}`. */
  predicate IsVideoId(x: string) {
    |x| == 11 && forall i :: 0 <= i < |x| ==> IsIdChar(x[i])
  }

  /** The text the pattern matches when its groups match these parts. */
  function Assemble(scheme: string, www: string, host: string, tld: string, path: string, id: string): string {
    scheme + (www + (host + ("." + (tld + ("/" + (path + id))))))
  }

  /** These parts are a decomposition of a prefix of `s` into the groups. */
  ghost predicate PrefixMatch(s: string, scheme: string, www: string, host: string, tld: string, path: string, id: string) {
    IsScheme(scheme) && IsWww(www) && IsHost(host) && IsTld(tld) && IsPath(path) && IsVideoId(id)
    && StartsWith(s, Assemble(scheme, www, host, tld, path, id))
  }

  /** What `re.match(pattern, s) is not None` means: some prefix of `s`
      decomposes into the groups; whatever follows it is ignored. */
  ghost predicate Matches(s: string) {
    exists scheme, www, host, tld, path, id :: PrefixMatch(s, scheme, www, host, tld, path, id)
  }

  // The scan. Each stage looks at the text that remains after the groups
  // before it and tries every alternative of its own group.

  predicate IdAhead(u: string) {
    |u| >= 11 && forall i :: 0 <= i < 11 ==> IsIdChar(u[i])
  }

  /** The `.+\?v=` alternative, backtracking over where `?v=` starts: some
      `k >= j` with no line feed before it, `?v=` at `k` and an identifier
      after that. The dot cannot cross a line feed, so the search stops at one. */
  predicate QueryIdFrom(u: string, j: nat)
    requires 1 <= j
    decreases |u| - j
  {
    if j > |u| || u[j - 1] == '\n' then false
    else (StartsWith(u[j..], "?v=") && IdAhead(u[j + 3..])) || QueryIdFrom(u, j + 1)
  }

  predicate PathIdAhead(u: string) {
    IdAhead(u)
    || (StartsWith(u, "watch?v=") && IdAhead(u[8..]))
    || (StartsWith(u, "embed/") && IdAhead(u[6..]))
    || (StartsWith(u, "v/") && IdAhead(u[2..]))
    || QueryIdFrom(u, 1)
  }

  predicate DomainAhead(u: string) {
    (StartsWith(u, ".com/") && PathIdAhead(u[5..]))
    || (StartsWith(u, ".be/") && PathIdAhead(u[4..]))
  }

  predicate HostAhead(u: string) {
    (StartsWith(u, "youtube") && DomainAhead(u[7..]))
    || (StartsWith(u, "youtu") && DomainAhead(u[5..]))
    || (StartsWith(u, "youtube-nocookie") && DomainAhead(u[16..]))
  }

  predicate WwwAhead(u: string) {
    HostAhead(u) || (StartsWith(u, "www.") && HostAhead(u[4..]))
  }

  /** `_is_valid_youtube_url`. */
  predicate IsValidYoutubeUrl(url: string) {
    WwwAhead(url)
    || (StartsWith(url, "http://") && WwwAhead(url[7..]))
    || (StartsWith(url, "https://") && WwwAhead(url[8..]))
  }

  // Soundness: every stage that succeeds yields the parts it matched.

  lemma IdSound(u: string) returns (id: string)
    requires IdAhead(u)
    ensures IsVideoId(id) && StartsWith(u, id)
  {
    id := u[..11];
  }

  lemma {:induction false} QuerySound(u: string, j: nat) returns (k: nat)
    requires 1 <= j && j - 1 <= |u| && NoNewline(u[..j - 1]) && QueryIdFrom(u, j)
    ensures j <= k && k + 3 <= |u| && NoNewline(u[..k]) && StartsWith(u[k..], "?v=") && IdAhead(u[k + 3..])
    decreases |u| - j
  {
    assert u[..j] == u[..j - 1] + [u[j - 1]];
    if StartsWith(u[j..], "?v=") && IdAhead(u[j + 3..]) {
      k := j;
    } else {
      k := QuerySound(u, j + 1);
    }
  }

  lemma PathIdSound(u: string) returns (path: string, id: string)
    requires PathIdAhead(u)
    ensures IsPath(path) && IsVideoId(id) && StartsWith(u, path + id)
  {
    if IdAhead(u) {
      path := "";
      id := IdSound(u);
    } else if StartsWith(u, "watch?v=") && IdAhead(u[8..]) {
      path := "watch?v=";
      id := IdSound(u[8..]);
    } else if StartsWith(u, "embed/") && IdAhead(u[6..]) {
      path := "embed/";
      id := IdSound(u[6..]);
    } else if StartsWith(u, "v/") && IdAhead(u[2..]) {
      path := "v/";
      id := IdSound(u[2..]);
    } else {
      var k := QuerySound(u, 1);
      path := u[..k + 3];
      assert path[..k] == u[..k];
      assert path[k..] == u[k..][..3];
      id := IdSound(u[k + 3..]);
    }
    StartsWithConcat(u, path, id);
  }

  lemma DomainSound(u: string) returns (tld: string, path: string, id: string)
    requires DomainAhead(u)
    ensures IsTld(tld) && IsPath(path) && IsVideoId(id) && StartsWith(u, "." + (tld + ("/" + (path + id))))
  {
    var n;
    if StartsWith(u, ".com/") && PathIdAhead(u[5..]) {
      tld, n := "com", 5;
    } else {
      tld, n := "be", 4;
    }
    path, id := PathIdSound(u[n..]);
    assert "." + (tld + ("/" + (path + id))) == ("." + tld + "/") + (path + id);
    StartsWithConcat(u, "." + tld + "/", path + id);
  }

  lemma HostSound(u: string) returns (host: string, tld: string, path: string, id: string)
    requires HostAhead(u)
    ensures IsHost(host) && IsTld(tld) && IsPath(path) && IsVideoId(id)
    ensures StartsWith(u, host + ("." + (tld + ("/" + (path + id)))))
  {
    if StartsWith(u, "youtube") && DomainAhead(u[7..]) {
      host := "youtube";
    } else if StartsWith(u, "youtu") && DomainAhead(u[5..]) {
      host := "youtu";
    } else {
      host := "youtube-nocookie";
    }
    tld, path, id := DomainSound(u[|host|..]);
    StartsWithConcat(u, host, "." + (tld + ("/" + (path + id))));
  }

  lemma WwwSound(u: string) returns (www: string, host: string, tld: string, path: string, id: string)
    requires WwwAhead(u)
    ensures IsWww(www) && IsHost(host) && IsTld(tld) && IsPath(path) && IsVideoId(id)
    ensures StartsWith(u, www + (host + ("." + (tld + ("/" + (path + id))))))
  {
    www := if HostAhead(u) then "" else "www.";
    assert u[|www|..] == if HostAhead(u) then u else u[4..];
    host, tld, path, id := HostSound(u[|www|..]);
    StartsWithConcat(u, www, host + ("." + (tld + ("/" + (path + id)))));
  }

  lemma ValidatorSound(url: string)
    requires IsValidYoutubeUrl(url)
    ensures Matches(url)
  {
    var scheme := if WwwAhead(url) then "" else if StartsWith(url, "http://") && WwwAhead(url[7..]) then "http://" else "https://";
    assert url[|scheme|..] == if scheme == "" then url else url[|scheme|..];
    var www, host, tld, path, id := WwwSound(url[|scheme|..]);
    StartsWithConcat(url, scheme, www + (host + ("." + (tld + ("/" + (path + id))))));
    assert PrefixMatch(url, scheme, www, host, tld, path, id);
  }

  // Completeness: every decomposition is found by the scan.

  lemma IdComplete(u: string, id: string)
    requires IsVideoId(id) && StartsWith(u, id)
    ensures IdAhead(u)
  {
    assert forall i :: 0 <= i < 11 ==> u[i] == u[..11][i];
  }

  lemma {:induction false} QueryComplete(u: string, j: nat, k: nat)
    requires 1 <= j <= k && k + 3 <= |u| && NoNewline(u[..k]) && StartsWith(u[k..], "?v=") && IdAhead(u[k + 3..])
    ensures QueryIdFrom(u, j)
    decreases k - j
  {
    assert u[j - 1] == u[..k][j - 1];
    if j < k {
      QueryComplete(u, j + 1, k);
    }
  }

  lemma PathIdComplete(u: string, path: string, id: string)
    requires IsPath(path) && IsVideoId(id) && StartsWith(u, path + id)
    ensures PathIdAhead(u)
  {
    StartsWithConcat(u, path, id);
    IdComplete(u[|path|..], id);
    if IsQueryPath(path) && !(path == "" || path == "watch?v=" || path == "embed/" || path == "v/") {
      var k := |path| - 3;
      assert u[..k] == path[..k];
      assert u[k..][..3] == path[k..];
      assert u[k + 3..] == u[|path|..];
      QueryComplete(u, 1, k);
    }
  }

  lemma DomainComplete(u: string, tld: string, path: string, id: string)
    requires IsTld(tld) && IsPath(path) && IsVideoId(id) && StartsWith(u, "." + (tld + ("/" + (path + id))))
    ensures DomainAhead(u)
  {
    assert "." + (tld + ("/" + (path + id))) == ("." + tld + "/") + (path + id);
    StartsWithConcat(u, "." + tld + "/", path + id);
    PathIdComplete(u[|"." + tld + "/"|..], path, id);
  }

  lemma HostComplete(u: string, host: string, tld: string, path: string, id: string)
    requires IsHost(host) && IsTld(tld) && IsPath(path) && IsVideoId(id)
    requires StartsWith(u, host + ("." + (tld + ("/" + (path + id)))))
    ensures HostAhead(u)
  {
    StartsWithConcat(u, host, "." + (tld + ("/" + (path + id))));
    DomainComplete(u[|host|..], tld, path, id);
  }

  lemma WwwComplete(u: string, www: string, host: string, tld: string, path: string, id: string)
    requires IsWww(www) && IsHost(host) && IsTld(tld) && IsPath(path) && IsVideoId(id)
    requires StartsWith(u, www + (host + ("." + (tld + ("/" + (path + id))))))
    ensures WwwAhead(u)
  {
    StartsWithConcat(u, www, host + ("." + (tld + ("/" + (path + id)))));
    assert u[|www|..] == if www == "" then u else u[4..];
    HostComplete(u[|www|..], host, tld, path, id);
  }

  lemma ValidatorComplete(url: string)
    requires Matches(url)
    ensures IsValidYoutubeUrl(url)
  {
    var scheme, www, host, tld, path, id :| PrefixMatch(url, scheme, www, host, tld, path, id);
    StartsWithConcat(url, scheme, www + (host + ("." + (tld + ("/" + (path + id))))));
    assert url[|scheme|..] == if scheme == "" then url else url[|scheme|..];
    WwwComplete(url[|scheme|..], www, host, tld, path, id);
  }

  /** The scan accepts exactly the strings the pattern matches at their start. */
  lemma ValidatorCorrect(url: string)
    ensures IsValidYoutubeUrl(url) <==> Matches(url)
  {
    if IsValidYoutubeUrl(url) { ValidatorSound(url); }
    if Matches(url) { ValidatorComplete(url); }
  }

  /** Trailing text never turns an accepted URL into a rejected one. */
  lemma MatchesPrefixClosed(s: string, t: string)
    requires Matches(s)
    ensures Matches(s + t)
  {
    var scheme, www, host, tld, path, id :| PrefixMatch(s, scheme, www, host, tld, path, id);
    var a := Assemble(scheme, www, host, tld, path, id);
    assert (s + t)[..|a|] == s[..|a|];
    assert PrefixMatch(s + t, scheme, www, host, tld, path, id);
  }

  /** The same for the scan, which is what the API runs. */
  lemma ValidatorPrefixClosed(s: string, t: string)
    requires IsValidYoutubeUrl(s)
    ensures IsValidYoutubeUrl(s + t)
  {
    ValidatorSound(s);
    MatchesPrefixClosed(s, t);
    ValidatorComplete(s + t);
  }

  /** An accepted URL begins with `h`, `w` or `y`; in particular it is
      never empty and never reads as a command-line option. */
  lemma MatchedUrlStart(s: string)
    requires Matches(s)
    ensures s != [] && (s[0] == 'h' || s[0] == 'w' || s[0] == 'y')
  {
    var scheme, www, host, tld, path, id :| PrefixMatch(s, scheme, www, host, tld, path, id);
    var a := Assemble(scheme, www, host, tld, path, id);
    assert s[0] == a[0];
    assert host[0] == 'y';
    if scheme == "" {
      if www == "" {
        assert a[0] == host[0];
      } else {
        assert a[0] == www[0];
      }
    } else {
      assert a[0] == scheme[0];
    }
  }

  /** A short link with and without a scheme is accepted, for every video
      identifier. */
  lemma ShortLinksMatch(id: string)
    requires IsVideoId(id)
    ensures Matches("youtu.be/" + id)
    ensures Matches("https://youtu.be/" + id)
  {
    assert PrefixMatch("youtu.be/" + id, "", "", "youtu", "be", "", id);
    assert PrefixMatch("https://youtu.be/" + id, "https://", "", "youtu", "be", "", id);
  }

  /** Text that is not a link is refused, and so is a link behind a space:
      the match is anchored at the very first character. */
  lemma NonLinksDoNotMatch()
    ensures !Matches("not a url")
    ensures !Matches(" https://youtu.be/dQw4w9WgXcQ")
  {
    if Matches("not a url") { MatchedUrlStart("not a url"); }
    if Matches(" https://youtu.be/dQw4w9WgXcQ") { MatchedUrlStart(" https://youtu.be/dQw4w9WgXcQ"); }
  }
}
