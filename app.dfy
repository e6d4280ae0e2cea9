/**
 * An application's URL space (App.php): the constructor stores the URL it is given
 * with its leading and trailing slashes and backslashes replaced by a single "/",
 * and url() hands that stored value back.
 */
module Apps {
  import opened Php

  /** The characters trim($url, '\/') strips. */
  const Slashes: set<char> := {'/', '\\'}

  /** '/' . trim($url, '\/') */
  function NormaliseUrl(url: string): (r: string)
    ensures |r| >= 1 && r[0] == '/'
    ensures |r| == 1 || (r[1] !in Slashes && r[|r| - 1] !in Slashes)
  {
    var t := Trim(url, Slashes);
    TrimEnds(url, Slashes);
    var r := "/" + t;
    assert |r| > 1 ==> r[1] == t[0] && r[|r| - 1] == t[|t| - 1];
    r
  }

  /**
   * What follows the leading "/" is a piece of the given URL, and everything cut
   * from either side of that piece is a slash or a backslash.
   */
  lemma NormaliseUrlCutsOnlySlashes(url: string)
    ensures var i := |url| - |LTrim(url, Slashes)|;
            var j := i + |Trim(url, Slashes)|;
            0 <= i <= j <= |url| && NormaliseUrl(url) == "/" + url[i..j] &&
            (forall k :: 0 <= k < i ==> url[k] in Slashes) &&
            (forall k :: j <= k < |url| ==> url[k] in Slashes)
  {
    var l := LTrim(url, Slashes);
    var t := RTrim(l, Slashes);
    LTrimRemovesOnly(url, Slashes);
    RTrimRemovesOnly(l, Slashes);
    var i := |url| - |l|;
    var j := i + |t|;
    assert t == url[i..j] by {
      assert l == url[i..];
      assert t == l[..|t|];
    }
    assert forall k :: j <= k < |url| ==> url[k] in Slashes by {
      forall k | j <= k < |url| ensures url[k] in Slashes {
        assert url[k] == l[k - i];
      }
    }
  }

  /** Normalising a URL that is already normalised leaves it as it is. */
  lemma NormaliseUrlIdempotent(url: string)
    ensures NormaliseUrl(NormaliseUrl(url)) == NormaliseUrl(url)
  {
    var t := Trim(url, Slashes);
    TrimEnds(url, Slashes);
    assert LTrim("/" + t, Slashes) == LTrim(t, Slashes) by {
      assert ("/" + t)[1..] == t;
    }
    TrimFixed(t, Slashes);
    assert LTrim(t, Slashes) == t;
  }

  /** A URL with no slash or backslash at either end gains only the leading "/". */
  lemma NormaliseUrlPlain(url: string)
    requires url == [] || (url[0] !in Slashes && url[|url| - 1] !in Slashes)
    ensures NormaliseUrl(url) == "/" + url
  {
    TrimFixed(url, Slashes);
  }

  /** An application as far as its URL space is concerned. */
  datatype App = App(url: string)
  {
    /** url() */
    function Url(): string
    {
      url
    }
  }

  /** new App($url) */
  function NewApp(url: string): (a: App)
    ensures a.Url() == NormaliseUrl(url)
    ensures a.Url()[0] == '/'
  {
    App(NormaliseUrl(url))
  }
}
