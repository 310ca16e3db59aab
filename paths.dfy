/**
 * The path rewrites of `fetchWithTranslations` and `loadJsonDataWithTranslations`
 * (json-loader.js:244, 249, 307, 414): an anchored strip of one `data/xx/` locale
 * segment, and the substitution of the leading `data/` with `data/<lang>/`.
 *
 * The second is `String.prototype.replace` with a replacement string built from the
 * language code, so the `$` patterns of that method apply to whatever the `lang`
 * parameter holds.
 */
module Paths {

  const DataDir: string := "data/"

  /** `/^data\//.test(p)`. */
  predicate IsDataPath(p: string) {
    |p| >= |DataDir| && p[..|DataDir|] == DataDir
  }

  predicate IsLowerAscii(c: char) {
    'a' <= c <= 'z'
  }

  /** `/^data\/[a-z]{2}\//.test(p)`. */
  predicate HasLocaleSegment(p: string) {
    |p| >= 8 && IsDataPath(p) && IsLowerAscii(p[5]) && IsLowerAscii(p[6]) && p[7] == '/'
  }

  /** `path.replace(/^data\/[a-z]{2}\//, 'data/')` (json-loader.js:244). */
  function StripLocale(p: string): (r: string)
    ensures HasLocaleSegment(p) ==> r == DataDir + p[8..] && |r| == |p| - 3
    ensures !HasLocaleSegment(p) ==> r == p
    ensures IsDataPath(p) <==> IsDataPath(r)
  {
    if HasLocaleSegment(p) then
      assert (DataDir + p[8..])[..5] == DataDir;
      DataDir + p[8..]
    else p
  }

  /**
   * The replacement text `template` of `String.prototype.replace` once its `$`
   * patterns are expanded, for a regular expression with no capture groups:
   * `$$` is a dollar sign, `$&` the matched text, `` $` `` the text before the match,
   * `$'` the text after it; any other `$` stands for itself.
   */
  function Expand(template: string, matched: string, before: string, after: string): string
    decreases |template|
  {
    if template == [] then ""
    else if template[0] == '$' && |template| >= 2 then
      var rest := Expand(template[2..], matched, before, after);
      match template[1]
      case '$' => "$" + rest
      case '&' => matched + rest
      case '`' => before + rest
      case '\'' => after + rest
      case _ => "$" + Expand(template[1..], matched, before, after)
    else [template[0]] + Expand(template[1..], matched, before, after)
  }

  /** A template without `$` is inserted as it is. */
  lemma {:induction false} ExpandLiteral(template: string, matched: string, before: string, after: string)
    requires '$' !in template
    ensures Expand(template, matched, before, after) == template
    decreases |template|
  {
    if template != [] {
      assert '$' !in template[1..] by {
        forall i | 0 <= i < |template[1..]| ensures template[1..][i] != '$' {
          assert template[1..][i] == template[i + 1];
        }
      }
      ExpandLiteral(template[1..], matched, before, after);
    }
  }

  /**
   * `p.replace(/^data\//, `data/${lang}/`)` (json-loader.js:249, 307, 414): a path
   * under `data/` gets its leading `data/` replaced by the expanded template; any
   * other path is left alone.
   */
  function Localize(p: string, lang: string): (r: string)
    ensures !IsDataPath(p) ==> r == p
  {
    if IsDataPath(p) then
      Expand(DataDir + lang + "/", DataDir, "", p[|DataDir|..]) + p[|DataDir|..]
    else p
  }

  /** With no `$` in the language code, the code is inserted as a directory after `data/`. */
  lemma LocalizeLiteral(p: string, lang: string)
    requires '$' !in lang
    ensures IsDataPath(p) ==> Localize(p, lang) == DataDir + lang + "/" + p[|DataDir|..]
  {
    if IsDataPath(p) {
      var t := DataDir + lang + "/";
      assert '$' !in t by {
        forall i | 0 <= i < |t| ensures t[i] != '$' {
          if |DataDir| <= i < |DataDir| + |lang| {
            assert t[i] == lang[i - |DataDir|];
          }
        }
      }
      ExpandLiteral(t, DataDir, "", p[|DataDir|..]);
    }
  }

  /** A two-lowercase-letter language code, the shape the strip recognises. */
  predicate IsLocaleCode(lang: string) {
    |lang| == 2 && IsLowerAscii(lang[0]) && IsLowerAscii(lang[1])
  }

  /**
   * Normalising a localised path gives the base path back: for a locale code and a
   * base path under `data/`, stripping the locale segment from the translated path
   * undoes the translation.
   */
  lemma StripLocalize(basePath: string, lang: string)
    requires IsLocaleCode(lang) && IsDataPath(basePath)
    ensures HasLocaleSegment(Localize(basePath, lang))
    ensures StripLocale(Localize(basePath, lang)) == basePath
  {
    LocalizeLiteral(basePath, lang);
    var rest := basePath[|DataDir|..];
    var t := DataDir + lang + "/" + rest;
    assert t[5] == lang[0] && t[6] == lang[1] && t[7] == '/';
    assert t[..5] == DataDir;
    assert t[8..] == rest;
    assert basePath == DataDir + rest;
  }

  /** Paths outside `data/` pass through both rewrites unchanged. */
  lemma OutsideData(p: string, lang: string)
    requires !IsDataPath(p)
    ensures StripLocale(p) == p && Localize(p, lang) == p
  {
  }

  /** The strip removes at most one locale segment. */
  lemma StripOnce()
    ensures StripLocale("data/es/fr/x.json") == "data/fr/x.json"
  {
    var p := "data/es/fr/x.json";
    assert HasLocaleSegment(p);
    assert p[8..] == "fr/x.json";
  }

  /** A `lang` of `$&` inserts the matched `data/` a second time. */
  lemma DollarAmpersand()
    ensures Localize("data/x.json", "$&") == "data/data//x.json"
  {
    var p := "data/x.json";
    assert IsDataPath(p);
    assert p[5..] == "x.json";
    ExpandDollarAmpersand();
    assert "data/data//" + "x.json" == "data/data//x.json";
  }

  lemma ExpandDollarAmpersand()
    ensures Expand(DataDir + "$&" + "/", DataDir, "", "x.json") == "data/data//"
  {
    var t := DataDir + "$&" + "/";
    assert t == "data/$&/";
    assert Expand("/", DataDir, "", "x.json") == "/";
    assert t[5..][2..] == "/";
    assert Expand(t[5..], DataDir, "", "x.json") == "data//";
    ExpandLiteral(DataDir, DataDir, "", "x.json");
    ExpandPrefix(DataDir, t[5..], DataDir, "", "x.json");
    assert DataDir + t[5..] == t;
  }

  /** A `$`-free prefix is copied ahead of the expansion of the rest. */
  lemma {:induction false} ExpandPrefix(pre: string, t: string, matched: string, before: string, after: string)
    requires '$' !in pre
    ensures Expand(pre + t, matched, before, after) == pre + Expand(t, matched, before, after)
    decreases |pre|
  {
    if pre != [] {
      assert (pre + t)[0] == pre[0];
      assert (pre + t)[1..] == pre[1..] + t;
      assert '$' !in pre[1..] by {
        forall i | 0 <= i < |pre[1..]| ensures pre[1..][i] != '$' {
          assert pre[1..][i] == pre[i + 1];
        }
      }
      ExpandPrefix(pre[1..], t, matched, before, after);
      var e := Expand(t, matched, before, after);
      assert Expand(pre + t, matched, before, after) == [pre[0]] + Expand(pre[1..] + t, matched, before, after);
      assert [pre[0]] + (pre[1..] + e) == pre + e;
    } else {
      assert pre + t == t;
    }
  }
}
