/** The destination record (model/destination.py): the storage URL shown
    with its password masked, and the record's dictionary form. The URL
    parser is foreign code; it enters as the password it found. */
module DestinationModel {

  import opened Py
  import opened Text
  import opened Values

  /** A destination: its key, unique name and stored (decrypted) URL. */
  datatype Destination = Destination(id: int, name: string, url: string)

  const Mask := "****"

  /** `sanitized_url`, given `parse_uri(url).get('password')`: with no or
      an empty password the stored URL is returned as is; otherwise every
      occurrence of the password, anywhere in the URL, is masked. */
  function SanitizedUrl(url: string, password: Option<string>): (r: string)
    ensures password.None? || password.value == "" ==> r == url
    ensures password.Some? && password.value != "" ==> r == ReplaceAll(url, password.value, Mask)
  {
    if password.None? || password.value == "" then url
    else ReplaceAll(url, password.value, Mask)
  }

  /** Masking leaves every prefix either equal to the original's prefix or
      holding a `*`. */
  lemma {:induction false} MaskedPrefix(s: string, pat: string, k: nat)
    requires pat != ""
    requires k <= |ReplaceAll(s, pat, Mask)|
    ensures (k <= |s| && ReplaceAll(s, pat, Mask)[..k] == s[..k]) || '*' in ReplaceAll(s, pat, Mask)[..k]
    decreases |s|
  {
    var r := ReplaceAll(s, pat, Mask);
    if k == 0 || |s| == 0 {
      assert r[..0] == [] == s[..0];
    } else if StartsWith(s, pat) {
      assert r[..k][0] == r[0] == '*';
    } else {
      var rest := ReplaceAll(s[1..], pat, Mask);
      assert r == [s[0]] + rest;
      MaskedPrefix(s[1..], pat, k - 1);
      assert r[..k] == [s[0]] + rest[..k - 1];
      if '*' in rest[..k - 1] {
        var j :| 0 <= j < k - 1 && rest[..k - 1][j] == '*';
        assert r[..k][j + 1] == '*';
      } else {
        assert s[..k] == [s[0]] + s[1..][..k - 1];
      }
    }
  }

  /** A password without `*` no longer occurs once masked. */
  lemma {:induction false} MaskRemovesPassword(s: string, pat: string)
    requires pat != "" && '*' !in pat
    ensures !Contains(ReplaceAll(s, pat, Mask), pat)
    decreases |s|
  {
    var r := ReplaceAll(s, pat, Mask);
    if |s| > 0 {
      var skip := if StartsWith(s, pat) then |pat| else 1;
      var rest := ReplaceAll(s[skip..], pat, Mask);
      MaskRemovesPassword(s[skip..], pat);
      var head := if StartsWith(s, pat) then Mask else [s[0]];
      assert r == head + rest;
      forall i | 0 <= i && i + |pat| <= |r|
        ensures !OccursAt(r, pat, i)
      {
        if i < |head| && StartsWith(s, pat) {
          assert r[i..i + |pat|][0] == '*';
        } else if i < |head| {
          MaskedPrefix(s, pat, |pat|);
          if '*' in r[..|pat|] {
            var j :| 0 <= j < |pat| && r[..|pat|][j] == '*';
            assert r[..|pat|][j] != pat[j];
          }
        } else {
          assert r[i..i + |pat|] == rest[i - |head|..i - |head| + |pat|];
          assert !OccursAt(rest, pat, i - |head|);
        }
      }
    }
  }

  /** The promise `sanitized_url` makes: a non-empty password without `*`
      does not appear in the sanitized URL, and a URL without a password
      is shown as stored. */
  lemma SanitizedHidesPassword(url: string, password: Option<string>)
    ensures password.Some? && password.value != "" && '*' !in password.value ==>
              !Contains(SanitizedUrl(url, password), password.value)
    ensures password.Some? && password.value != "" && !Contains(url, password.value) ==>
              SanitizedUrl(url, password) == url
  {
    if password.Some? && password.value != "" {
      if '*' !in password.value {
        MaskRemovesPassword(url, password.value);
      }
      if !Contains(url, password.value) {
        ReplaceAbsent(url, password.value, Mask);
      }
    }
  }

  /** `to_dict()`: exactly `id`, `name` and the sanitized `url`. */
  function ToDict(d: Destination, password: Option<string>): (r: Object)
    ensures r.Keys == {"id", "name", "url"}
    ensures r["id"] == JInt(d.id) && r["name"] == JStr(d.name)
    ensures r["url"] == JStr(SanitizedUrl(d.url, password))
  {
    map["id" := JInt(d.id), "name" := JStr(d.name), "url" := JStr(SanitizedUrl(d.url, password))]
  }

  /** The dictionary of a destination whose password (without `*`) was
      found never shows it. */
  lemma ToDictHidesPassword(d: Destination, password: string)
    requires password != "" && '*' !in password
    ensures !Contains(ToDict(d, Some(password))["url"].s, password)
  {
    SanitizedHidesPassword(d.url, Some(password));
  }
}
