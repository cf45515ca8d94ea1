/**
 * The user snapshot kept under the `user` key, and the pair of functions that
 * stand for `JSON.stringify` / `JSON.parse` of it. The concrete text format is
 * not the point: Stringify is total, Parse may fail on text it did not produce
 * (a corrupt snapshot), and the two are exact inverses of each other.
 *
 * Each field is written as `#` repeated once per character, a `:`, and then
 * the characters themselves, so every field delimits itself whatever it holds.
 */
module UserJson {
  import opened Wrappers

  /** Identity: the authenticated user's profile `{ id, name, email, role }`. */
  datatype User = User(id: string, name: string, email: string, role: string)

  function Hashes(n: nat): (r: string)
    ensures |r| == n && forall i :: 0 <= i < n ==> r[i] == '#'
  {
    seq(n, _ => '#')
  }

  function EncodeField(f: string): string {
    Hashes(|f|) + ":" + f
  }

  /** The number of leading `#` characters of s. */
  function CountHashes(s: string): (n: nat)
    ensures n <= |s|
    ensures forall i :: 0 <= i < n ==> s[i] == '#'
    ensures n < |s| ==> s[n] != '#'
  {
    if s != [] && s[0] == '#' then 1 + CountHashes(s[1..]) else 0
  }

  /** Reads one field off the front of s, returning it and the rest. */
  function DecodeField(s: string): Option<(string, string)> {
    var n := CountHashes(s);
    if n + 1 + n <= |s| && s[n] == ':' then Some((s[n + 1..n + 1 + n], s[n + 1 + n..]))
    else None
  }

  /** The fields one after the other, each self-delimiting. */
  function EncodeFields(fs: seq<string>): string {
    if fs == [] then "" else EncodeField(fs[0]) + EncodeFields(fs[1..])
  }

  /** Reads exactly k fields and requires nothing to follow them. */
  function DecodeFields(s: string, k: nat): Option<seq<string>> {
    if k == 0 then (if s == "" then Some([]) else None)
    else
      match DecodeField(s)
      case None => None
      case Some((f, rest)) =>
        match DecodeFields(rest, k - 1)
        case None => None
        case Some(fs) => Some([f] + fs)
  }

  function Fields(u: User): seq<string> {
    [u.id, u.name, u.email, u.role]
  }

  /** `JSON.stringify(user)`. */
  function Stringify(u: User): (r: string) {
    EncodeFields(Fields(u))
  }

  /** `JSON.parse(text)`: None when the text is not a serialised user. */
  function Parse(s: string): Option<User> {
    match DecodeFields(s, 4)
    case None => None
    case Some(fs) => if |fs| == 4 then Some(User(fs[0], fs[1], fs[2], fs[3])) else None
  }

  lemma {:induction false} CountHashesOfEncoded(n: nat, rest: string)
    ensures CountHashes(Hashes(n) + ":" + rest) == n
  {
    var s := Hashes(n) + ":" + rest;
    if n > 0 {
      assert s[1..] == Hashes(n - 1) + ":" + rest;
      CountHashesOfEncoded(n - 1, rest);
    }
  }

  /** A field followed by anything decodes back to that field and the rest. */
  lemma DecodeEncodedField(f: string, rest: string)
    ensures DecodeField(EncodeField(f) + rest) == Some((f, rest))
  {
    var s := EncodeField(f) + rest;
    assert s == Hashes(|f|) + ":" + (f + rest);
    CountHashesOfEncoded(|f|, f + rest);
    var n := |f|;
    assert s[n + 1..n + 1 + n] == f;
    assert s[n + 1 + n..] == rest;
  }

  /** Whatever DecodeField accepts is a field it could have been encoded from. */
  lemma DecodedFieldIsEncoded(s: string, f: string, rest: string)
    requires DecodeField(s) == Some((f, rest))
    ensures s == EncodeField(f) + rest
  {
    var n := CountHashes(s);
    assert s[..n] == Hashes(n);
    assert s == s[..n] + [s[n]] + s[n + 1..n + 1 + n] + s[n + 1 + n..];
  }

  lemma {:induction false} DecodeEncodedFields(fs: seq<string>)
    ensures DecodeFields(EncodeFields(fs), |fs|) == Some(fs)
  {
    if fs != [] {
      DecodeEncodedField(fs[0], EncodeFields(fs[1..]));
      DecodeEncodedFields(fs[1..]);
      assert [fs[0]] + fs[1..] == fs;
    }
  }

  lemma {:induction false} DecodedFieldsAreEncoded(s: string, k: nat, fs: seq<string>)
    requires DecodeFields(s, k) == Some(fs)
    ensures |fs| == k && s == EncodeFields(fs)
  {
    if k > 0 {
      var (f, rest) := DecodeField(s).value;
      var tail := DecodeFields(rest, k - 1).value;
      DecodedFieldIsEncoded(s, f, rest);
      DecodedFieldsAreEncoded(rest, k - 1, tail);
      assert fs == [f] + tail && fs[1..] == tail;
    }
  }

  /** Round trip: parsing what was stringified gives the same user back. */
  lemma ParseStringify(u: User)
    ensures Stringify(u) != ""
    ensures Parse(Stringify(u)) == Some(u)
  {
    DecodeEncodedFields(Fields(u));
    assert EncodeFields(Fields(u)) == EncodeField(u.id) + EncodeFields(Fields(u)[1..]);
  }

  /** The converse: the only text that parses to u is Stringify(u). */
  lemma ParseOnlyAcceptsStringified(s: string, u: User)
    requires Parse(s) == Some(u)
    ensures s == Stringify(u)
  {
    var fs := DecodeFields(s, 4).value;
    DecodedFieldsAreEncoded(s, 4, fs);
    assert fs == Fields(u);
  }
}
