/** The crawler's URL canonicaliser (`WebsiteAnalyzer._normalise_url`),
    analyzer.py:74-86. A URL is the six-component record that `urlparse`
    produces (scheme, netloc, path, params, query, fragment; the generic
    syntax of section 3 of RFC 3986). Parsing a string into this record and
    printing it back (`geturl`) are parameters of the crawler (module
    Crawler); this module is the normalisation in between. */
module Urls {
  import opened Common

  datatype Url = Url(scheme: string, netloc: string, path: string,
                     params: string, query: string, fragment: string)

  /** `p.path.rstrip("/") or "/"` */
  function CanonicalPath(path: string): string {
    var p := RStrip(path, '/');
    if p == [] then "/" else p
  }

  /** Lower-case scheme and netloc, canonical path, no fragment; params and
      query are kept as they are. */
  function Normalise(u: Url): Url {
    u.(scheme := Lower(u.scheme), netloc := Lower(u.netloc),
       path := CanonicalPath(u.path), fragment := "")
  }

  /** The canonical path is "/" exactly when the path is empty or all
      slashes; otherwise it is the path without its trailing slashes, and it
      does not end in '/'. */
  lemma CanonicalPathShape(path: string)
    ensures var r := CanonicalPath(path);
            (r == "/" <==> forall i :: 0 <= i < |path| ==> path[i] == '/') &&
            (r != "/" ==> r != [] && r[|r| - 1] != '/' && StartsWith(path, r) &&
                          forall i :: |r| <= i < |path| ==> path[i] == '/')
  {
    var p := RStrip(path, '/');
    RStripShape(path, '/');
    if p != [] {
      assert p[|p| - 1] != '/';
      assert path[|p| - 1] == p[|p| - 1];
      if p == "/" {
        assert false;
      }
    }
  }

  /** What the key of a URL looks like: no fragment, lower-case scheme and
      netloc, params and query untouched, and a path that is "/" or does not
      end in '/'. */
  lemma NormaliseShape(u: Url)
    ensures var r := Normalise(u);
            r.fragment == "" &&
            IsLower(r.scheme) && IsLower(r.netloc) &&
            r.scheme == Lower(u.scheme) && r.netloc == Lower(u.netloc) &&
            r.params == u.params && r.query == u.query &&
            (r.path == "/" || (r.path != [] && r.path[|r.path| - 1] != '/'))
  {
    LowerIsLower(u.scheme);
    LowerIsLower(u.netloc);
    CanonicalPathShape(u.path);
  }

  lemma {:induction false} RStripFixed(s: string, c: char)
    requires s == [] || s[|s| - 1] != c
    ensures RStrip(s, c) == s
  {
  }

  /** A canonical path is its own canonical path. */
  lemma CanonicalPathIdempotent(path: string)
    ensures CanonicalPath(CanonicalPath(path)) == CanonicalPath(path)
  {
    var p := CanonicalPath(path);
    RStripShape(path, '/');
    if p != "/" {
      RStripFixed(p, '/');
    } else {
      assert RStrip(p, '/') == RStrip([], '/') by {
        assert p[..|p| - 1] == [];
      }
    }
  }

  /** The canonicaliser is idempotent. */
  lemma NormaliseIdempotent(u: Url)
    ensures Normalise(Normalise(u)) == Normalise(u)
  {
    LowerIsLower(u.scheme);
    LowerIsLower(u.netloc);
    CanonicalPathIdempotent(u.path);
  }

  /** Two URLs that differ only in the case of scheme and netloc, in trailing
      slashes, or in the fragment get the same key. */
  lemma NormaliseIgnores(u: Url, scheme': string, netloc': string, fragment': string, slashes: nat)
    requires Lower(scheme') == Lower(u.scheme) && Lower(netloc') == Lower(u.netloc)
    ensures Normalise(u.(scheme := scheme', netloc := netloc', fragment := fragment',
                         path := u.path + seq(slashes, _ => '/')))
            == Normalise(u)
  {
    AppendSlashes(u.path, slashes);
  }

  lemma {:induction false} AppendSlashes(path: string, n: nat)
    ensures RStrip(path + seq(n, _ => '/'), '/') == RStrip(path, '/')
    decreases n
  {
    if n > 0 {
      var t := path + seq(n, _ => '/');
      assert t[..|t| - 1] == path + seq(n - 1, _ => '/');
      AppendSlashes(path, n - 1);
    } else {
      assert path + seq(n, _ => '/') == path;
    }
  }
}
