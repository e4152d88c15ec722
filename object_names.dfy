/** Object keys: how the facade namespaces a user's object name under the user's id,
    and the character-class gate a name has to pass first. */
module ObjectNames {
  import opened Results

  /** Membership in the character class `[0-9a-zA-Z!-_.*'()]`, item by item, as the
      .NET regular-expression engine reads it. `Regex.Escape("-")` leaves the hyphen
      unescaped, so `!-_` is the range from `!` (0x21) to `_` (0x5F), not three
      separate characters. */
  predicate InNameClass(c: char): (b: bool)
    ensures b ==> '!' <= c <= 'z'
  {
    || ('0' <= c <= '9')
    || ('a' <= c <= 'z')
    || ('A' <= c <= 'Z')
    || ('!' <= c <= '_')
    || c == '.' || c == '*' || c == '\'' || c == '(' || c == ')'
  }

  /** The characters the pattern's author listed: digits, ASCII letters and `!-_.*'()`. */
  predicate IsListedChar(c: char) {
    || ('0' <= c <= '9')
    || ('a' <= c <= 'z')
    || ('A' <= c <= 'Z')
    || c == '!' || c == '-' || c == '_' || c == '.' || c == '*' || c == '\'' || c == '(' || c == ')'
  }

  /** The characters the class admits although they are not in the listed set. */
  const UnlistedAdmitted: string := "\"#$%&+,/:;<=>?@[\\]^"

  /** `Regex.IsMatch(name, class)`: the pattern matches when SOME character of `name`
      is in the class; it is a "contains" test, not a whole-string match. */
  predicate PassesNameCheck(name: string): (b: bool)
    ensures b ==> name != []
  {
    exists i | 0 <= i < |name| :: InNameClass(name[i])
  }

  /** `GetFullObjectName`: the key `"{userId}/{name}"`, or no key when the user id is
      null or no character of `name` is in the class. */
  function FullObjectName(userId: Option<string>, name: string): (r: Option<string>)
    ensures r.None? <==> userId.None? || forall i | 0 <= i < |name| :: !InNameClass(name[i])
    ensures r.Some? ==>
      var u := userId.value;
      && |r.value| == |u| + 1 + |name|
      && r.value[..|u|] == u
      && r.value[|u|] == '/'
      && r.value[|u| + 1..] == name
  {
    if userId.None? || !PassesNameCheck(name) then None
    else Some(userId.value + "/" + name)
  }

  /** The class is exactly two ranges: `!`..`_` and `a`..`z`. */
  lemma NameClassIsTwoRanges(c: char)
    ensures InNameClass(c) <==> ('!' <= c <= '_' || 'a' <= c <= 'z')
  {
  }

  /** Every character the author listed is admitted ... */
  lemma ListedCharsAdmitted(c: char)
    ensures IsListedChar(c) ==> InNameClass(c)
  {
  }

  /** ... and the class admits exactly nineteen further ASCII punctuation characters. */
  lemma UnlistedCharsAdmitted(c: char)
    ensures InNameClass(c) && !IsListedChar(c) <==> c in UnlistedAdmitted
  {
  }

  /** The gate is a "contains" test: a name with a space or a `~` still yields a key
      as long as one character is in the class. A `/` is itself in the class, so a
      name may hold `/` and may even consist of nothing else. */
  lemma ContainsNotFullMatch()
    ensures !InNameClass(' ') && !InNameClass('~') && FullObjectName(Some("u"), "a b~") == Some("u/a b~")
    ensures FullObjectName(Some("u"), " ~") == None
    ensures InNameClass('/') && FullObjectName(Some("u"), "/") == Some("u//")
  {
    assert InNameClass("a b~"[0]);
    assert "u" + "/" + "a b~" == "u/a b~";
    assert InNameClass("/"[0]);
    assert "u" + "/" + "/" == "u//";
  }

  /** The namespaced key always lies under the listing prefix `userId`, so a
      directory listing by that prefix sees every object of the user. */
  lemma KeyUnderUserPrefix(userId: string, name: string)
    requires FullObjectName(Some(userId), name).Some?
    ensures userId + "/" <= FullObjectName(Some(userId), name).value
  {
  }

  /** The listing prefix is the bare user id, with no trailing `/`: it also lies
      under the keys of every user whose id extends it, so a listing by `userId`
      sees those users' objects too. */
  lemma PrefixCoversExtendedUserIds(userId: string, other: string, name: string)
    requires userId <= other
    requires FullObjectName(Some(other), name).Some?
    ensures userId <= FullObjectName(Some(other), name).value
  {
  }

  /** For example, the prefix `a` lies under user `ab`'s key `ab/x`. */
  lemma PrefixCoversOtherUser()
    ensures FullObjectName(Some("ab"), "x") == Some("ab/x") && "a" <= "ab/x"
  {
    assert InNameClass("x"[0]);
    assert "ab" + "/" + "x" == "ab/x";
  }

  /** Index of the first `/` in `s`, or `|s|` when there is none. */
  function FirstSlash(s: string): (i: nat)
    ensures i <= |s|
    ensures i < |s| ==> s[i] == '/'
    ensures forall j | 0 <= j < i :: s[j] != '/'
  {
    if s == [] || s[0] == '/' then 0 else 1 + FirstSlash(s[1..])
  }

  /** The inverse of key derivation: split a key at its first `/`. */
  function SplitObjectName(key: string): (r: Option<(string, string)>)
  {
    var i := FirstSlash(key);
    if i == |key| then None else Some((key[..i], key[i + 1..]))
  }

  /** Round trip: for a user id without `/`, splitting the derived key gives back
      the user id and the name. */
  lemma SplitFullObjectName(userId: string, name: string)
    requires forall i | 0 <= i < |userId| :: userId[i] != '/'
    requires FullObjectName(Some(userId), name).Some?
    ensures SplitObjectName(FullObjectName(Some(userId), name).value) == Some((userId, name))
  {
  }

  /** Keys of different users or different names never collide, as long as user
      ids contain no `/`. */
  lemma FullObjectNameInjective(u1: string, n1: string, u2: string, n2: string)
    requires forall i | 0 <= i < |u1| :: u1[i] != '/'
    requires forall i | 0 <= i < |u2| :: u2[i] != '/'
    requires FullObjectName(Some(u1), n1).Some?
    requires FullObjectName(Some(u1), n1) == FullObjectName(Some(u2), n2)
    ensures u1 == u2 && n1 == n2
  {
  }

  /** Without that condition keys do collide: user `a/b` with name `c` and user `a`
      with name `b/c` share the key `a/b/c`. */
  lemma SlashInUserIdCollides()
    ensures FullObjectName(Some("a/b"), "c") == FullObjectName(Some("a"), "b/c") == Some("a/b/c")
  {
    assert InNameClass("c"[0]) && InNameClass("b/c"[0]);
    assert "a/b" + "/" + "c" == "a/b/c" == "a" + "/" + "b/c";
  }
}
