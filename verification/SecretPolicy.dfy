// The store's rule for what is a secret (json_store.py:19-31 and 150-166), and
// that it meets the laws which redaction relies on.

module SecretPolicy {
  import opened Domain
  import opened FieldNames
  import opened Redaction
  import Codec

  /** str.casefold() of one character. */
  type Fold = char -> string

  /** On ASCII, case folding turns capitals into small letters and nothing else. */
  ghost predicate FoldsAscii(fold: Fold) {
    && (forall c: char | c < '\U{80}' && !('A' <= c <= 'Z') :: fold(c) == [c])
    && (forall c: char | 'A' <= c <= 'Z' :: fold(c) == [c + ' '])
  }

  function Folded(fold: Fold, t: string): string {
    if t == "" then "" else fold(t[0]) + Folded(fold, t[1..])
  }

  predicate Alphanumeric(c: char) {
    'a' <= c <= 'z' || '0' <= c <= '9'
  }

  function Letters(t: string): string {
    if t == "" then "" else (if Alphanumeric(t[0]) then [t[0]] else "") + Letters(t[1..])
  }

  const SECRET_KEYS := {
    "apikey",
    "authorization",
    "bearer",
    "clientsecret",
    "openaikey",
    "openaiapikey",
    "password",
    "refreshtoken",
    "accesstoken",
    "secret"
  }

  const TOKEN_PREFIX := "sk-"

  const BEARER_PREFIX := "bearer "

  predicate SecretKey(fold: Fold, key: string) {
    Letters(Folded(fold, key)) in SECRET_KEYS
  }

  predicate SecretText(fold: Fold, t: string) {
    (TOKEN_PREFIX <= t && |t| > 6) || BEARER_PREFIX <= Folded(fold, t)
  }

  /** The platform redacts by this rule, hashes in hexadecimal, and its time
      stamps start with a digit. */
  ghost predicate StorePolicy(pf: Platform, fold: Fold) {
    && FoldsAscii(fold)
    && (forall k :: pf.secretKey(k) <==> SecretKey(fold, k))
    && (forall t :: pf.secretText(t) <==> SecretText(fold, t))
    && (forall p :: Hex(pf.fingerprint(p)))
    && (forall t | pf.timestamp(t) :: t != "" && '0' <= t[0] <= '9')
  }

  predicate Plain(c: char) {
    c < '\U{80}' && !('A' <= c <= 'Z')
  }

  lemma {:induction false} FoldedFirst(fold: Fold, t: string)
    requires FoldsAscii(fold) && t != "" && Plain(t[0])
    ensures Folded(fold, t) == [t[0]] + Folded(fold, t[1..])
  {
  }

  lemma {:induction false} NoPrefix(a: string, b: string, i: nat)
    requires i < |a| && (i < |b| ==> a[i] != b[i])
    ensures !(a <= b)
  {
  }

  /** A text is no secret if it starts like none. */
  lemma {:induction false} FirstTells(fold: Fold, t: string)
    requires FoldsAscii(fold) && t != "" && Plain(t[0]) && t[0] != 's' && t[0] != 'b'
    ensures !SecretText(fold, t)
  {
    FoldedFirst(fold, t);
    NoPrefix(BEARER_PREFIX, Folded(fold, t), 0);
    NoPrefix(TOKEN_PREFIX, t, 0);
  }

  lemma {:induction false} SecondTells(fold: Fold, t: string)
    requires FoldsAscii(fold) && |t| >= 2 && Plain(t[0]) && Plain(t[1]) && t[1] != 'k' && t[1] != 'e'
    ensures !SecretText(fold, t)
  {
    FoldedFirst(fold, t);
    FoldedFirst(fold, t[1..]);
    assert Folded(fold, t)[1] == t[1];
    NoPrefix(BEARER_PREFIX, Folded(fold, t), 1);
    NoPrefix(TOKEN_PREFIX, t, 1);
  }

  lemma {:induction false} HexStays(fold: Fold, t: string)
    requires FoldsAscii(fold) && Hex(t)
    ensures Folded(fold, t) == t
    decreases |t|
  {
    if t != "" {
      HexStays(fold, t[1..]);
      FoldedFirst(fold, t);
    }
  }

  lemma {:induction false} HexPlain(fold: Fold, t: string)
    requires FoldsAscii(fold) && Hex(t)
    ensures !SecretText(fold, t)
  {
    HexStays(fold, t);
    assert BEARER_PREFIX[3] == 'r' && TOKEN_PREFIX[0] == 's';
  }

  // ----- keys -----

  /** Starts like no secret key. */
  predicate OpenStart(n: string) {
    && n != "" && 'a' <= n[0] <= 'z'
    && (n[0] in {'a', 'b', 'c', 'o', 'p', 'r', 's'} ==>
      |n| >= 3 && 'a' <= n[1] <= 'z' && 'a' <= n[2] <= 'z'
      && n[..3] !in {"api", "aut", "bea", "cli", "ope", "pas", "ref", "acc", "sec"})
  }

  lemma {:induction false} LettersFirst(fold: Fold, n: string)
    requires FoldsAscii(fold) && n != "" && 'a' <= n[0] <= 'z'
    ensures Letters(Folded(fold, n)) == [n[0]] + Letters(Folded(fold, n[1..]))
  {
    FoldedFirst(fold, n);
    assert ([n[0]] + Folded(fold, n[1..]))[1..] == Folded(fold, n[1..]);
  }

  lemma {:induction false} OpenKey(fold: Fold, n: string)
    requires FoldsAscii(fold) && OpenStart(n)
    ensures !SecretKey(fold, n)
  {
    var letters := Letters(Folded(fold, n));
    LettersFirst(fold, n);
    assert letters[0] == n[0];
    if n[0] in {'a', 'b', 'c', 'o', 'p', 'r', 's'} {
      LettersFirst(fold, n[1..]);
      LettersFirst(fold, n[1..][1..]);
      assert letters[..3] == n[..3];
      SecretStart(letters);
    } else {
      SecretFirst(letters);
    }
  }

  lemma {:induction false} SecretFirst(key: string)
    ensures key in SECRET_KEYS ==> key != "" && key[0] in {'a', 'b', 'c', 'o', 'p', 'r', 's'}
  {
  }

  lemma {:induction false} SecretStart(key: string)
    ensures key in SECRET_KEYS ==>
              |key| >= 3 && key[..3] in {"api", "aut", "bea", "cli", "ope", "pas", "ref", "acc", "sec"}
  {
    assert "apikey"[..3] == "api" && "authorization"[..3] == "aut" && "bearer"[..3] == "bea" && "clientsecret"[..3] == "cli";
    assert "openaikey"[..3] == "ope" && "openaiapikey"[..3] == "ope" && "password"[..3] == "pas";
    assert "refreshtoken"[..3] == "ref" && "accesstoken"[..3] == "acc" && "secret"[..3] == "sec";
  }

  predicate NameOpen(f: Field) {
    f.Access? || OpenStart(Name(f))
  }

  lemma {:induction false} WorkNamesOpen(f: Field)
    requires OfWork(f)
    ensures NameOpen(f)
  {
  }

  lemma {:induction false} OtherNamesOpen(f: Field)
    requires !OfWork(f)
    ensures NameOpen(f)
  {
  }

  lemma {:induction false} LettersOf(fold: Fold, n: string)
    requires FoldsAscii(fold) && forall i | 0 <= i < |n| :: 'a' <= n[i] <= 'z'
    ensures Letters(Folded(fold, n)) == n
    decreases |n|
  {
    if n != "" {
      LettersFirst(fold, n);
      LettersOf(fold, n[1..]);
    }
  }

  lemma {:induction false} FieldNameOpen(fold: Fold, f: Field)
    requires FoldsAscii(fold)
    ensures !SecretKey(fold, Name(f))
  {
    hide OpenStart, SecretKey;
    if f.Access? {
      AccessOpen(fold);
    } else {
      if OfWork(f) {
        WorkNamesOpen(f);
      } else {
        OtherNamesOpen(f);
      }
      hide Name;
      OpenKey(fold, Name(f));
    }
  }

  lemma {:induction false} AccessOpen(fold: Fold)
    requires FoldsAscii(fold)
    ensures !SecretKey(fold, "access")
  {
    LettersOf(fold, "access");
    assert |"access"| == 6;
    assert "access"[0] != "secret"[0] && "access"[1] != "apikey"[1] && "access"[0] != "bearer"[0];
  }

  lemma {:induction false} TagOpen(fold: Fold, t: Tag)
    requires FoldsAscii(fold)
    ensures !SecretText(fold, TagText(t))
  {
    var n := TagText(t);
    if n[0] == 's' || n[0] == 'b' {
      SecondTells(fold, n);
    } else {
      FirstTells(fold, n);
    }
  }

  lemma {:induction false} TaskKeyOpen(fold: Fold)
    requires FoldsAscii(fold)
    ensures !SecretKey(fold, TASK_ID)
  {
    OpenKey(fold, TASK_ID);
  }

  lemma {:induction false} UnderscoreSkipped(fold: Fold, n: string)
    requires FoldsAscii(fold) && n != "" && n[0] == '_'
    ensures Letters(Folded(fold, n)) == Letters(Folded(fold, n[1..]))
  {
    FoldedFirst(fold, n);
    assert (['_'] + Folded(fold, n[1..]))[1..] == Folded(fold, n[1..]);
  }

  lemma {:induction false} UnderscoresOpen(fold: Fold, n: string)
    requires FoldsAscii(fold) && |n| > 2 && n[0] == '_' && n[1] == '_' && n[2] == 'g'
    ensures !SecretKey(fold, n)
  {
    UnderscoreSkipped(fold, n);
    UnderscoreSkipped(fold, n[1..]);
    OpenKey(fold, n[1..][1..]);
  }

  /** The store's rule meets the laws of redaction and leaves the names and words
      of the file format alone. */
  lemma {:induction false} PolicyValid(pf: Platform, fold: Fold)
    requires StorePolicy(pf, fold)
    ensures ValidPlatform(pf) && Codec.CleanNames(pf)
  {
    hide SecretText, SecretKey, OpenStart;
    FirstTells(fold, REDACTED);
    FirstTells(fold, COMPLETION_ID);
    FirstTells(fold, TASK_ID);
    UnderscoresOpen(fold, COMPLETION_ID);
    TaskKeyOpen(fold);
    forall t: string | Hex(t) ensures !pf.secretText(t) {
      HexPlain(fold, t);
    }
    forall t: string | pf.timestamp(t) ensures !pf.secretText(t) {
      FirstTells(fold, t);
    }
    forall f ensures !pf.secretKey(Name(f)) {
      FieldNameOpen(fold, f);
    }
    forall t ensures !pf.secretText(TagText(t)) {
      TagOpen(fold, t);
    }
  }

  /** A work item may not be called "secret": its run can be saved but never
      loaded again. */
  lemma {:induction false} SecretIdNeverLoads(pf: Platform, fold: Fold, s: Snapshot)
    requires StorePolicy(pf, fold) && Codec.TimesValid(pf, s) && s.schemaVersion == 1 && "secret" in s.workItems
    ensures Codec.FromJson(pf, RedactJson(pf, Codec.ToJson(s))).Err?
  {
    hide Codec.CleanNames, ValidPlatform, Codec.TimesValid, Codec.FromJson, Codec.ToJson, RedactJson, SecretKey,
      SecretText, Hex, FoldsAscii;
    PolicyValid(pf, fold);
    SecretIsSecret(fold);
    Codec.SaveThenLoad(pf, s);
  }

  lemma {:induction false} SecretIsSecret(fold: Fold)
    requires FoldsAscii(fold)
    ensures SecretKey(fold, "secret")
  {
    LettersOf(fold, "secret");
  }
}
