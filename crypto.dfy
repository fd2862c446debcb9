/** The field encryption of `src/lib/crypto.ts`: the key read from `ENCRYPTION_KEY`,
    AES-256-GCM output written as `iv:authTag:content` in hex, and the format checks
    `decrypt`, `isEncrypted` and `safeDecrypt` make. The cipher, `randomBytes` and the
    Base64 decoder are parameters. */
module Crypto {

  import opened Wrappers
  import Text

  newtype byte = x: int | 0 <= x < 256

  const IvLength: nat := 12
  const AuthTagLength: nat := 16
  const KeyLength: nat := 32

  const KeyNotSet := "ENCRYPTION_KEY environment variable is not set"
  const KeyWrongLength := "ENCRYPTION_KEY must be 32 bytes (32 bytes, hex or Base64 encoded)"
  const EncryptEmpty := "Invalid input: text must be a non-empty string"
  const DecryptEmpty := "Invalid input: encryptedText must be a non-empty string"
  const WrongParts := "Invalid encrypted text format: expected iv:authTag:encryptedContent"
  const BadIv := "Invalid IV format"
  const BadTag := "Invalid auth tag format"
  const BadContent := "Invalid encrypted content format"
  const CipherFailed := "Decryption failed: authentication tag mismatch or corrupted data"

  // ---------------------------------------------------------------------------------
  // Hex

  function HexChar(d: int): (c: char)
    requires 0 <= d < 16
    ensures Text.IsHexDigit(c) && c != ':'
  {
    if d < 10 then ('0' as int + d) as char else ('a' as int + d - 10) as char
  }

  function HexValue(c: char): (d: int)
    requires Text.IsHexDigit(c)
    ensures 0 <= d < 16
  {
    if '0' <= c <= '9' then c as int - '0' as int
    else if 'a' <= c <= 'f' then c as int - 'a' as int + 10
    else c as int - 'A' as int + 10
  }

  predicate AllHex(s: string) {
    forall i :: 0 <= i < |s| ==> Text.IsHexDigit(s[i])
  }

  /** `buffer.toString('hex')`: two lower-case digits per byte. */
  function ToHex(b: seq<byte>): (r: string)
    ensures |r| == 2 * |b| && AllHex(r) && ':' !in r
  {
    if |b| == 0 then []
    else [HexChar(b[0] as int / 16), HexChar(b[0] as int % 16)] + ToHex(b[1..])
  }

  /** `Buffer.from(s, 'hex')` on hex digits: one byte per pair, an odd last digit
      dropped. */
  function FromHex(s: string): (r: seq<byte>)
    requires AllHex(s)
    ensures |r| == |s| / 2
  {
    if |s| < 2 then []
    else [(HexValue(s[0]) * 16 + HexValue(s[1])) as byte] + FromHex(s[2..])
  }

  // ---------------------------------------------------------------------------------
  // Operations

  /** `getKey()`, with `env` the variable (`None` when unset) and `base64` the Base64
      decoder: a key of exactly 64 hex digits is read as hex, anything else as Base64,
      and the bytes must number 32. */
  function GetKey(env: Option<string>, base64: string -> seq<byte>): Result<seq<byte>, string> {
    if env.None? || env.value == "" then Err(KeyNotSet)
    else
      var key := env.value;
      var buffer := if |key| == 64 && Text.HexRegex(key) then FromHex(key) else base64(key);
      if |buffer| != KeyLength then Err(KeyWrongLength) else Ok(buffer)
  }

  /** What the cipher gives back for one plain text: the authentication tag and the
      encrypted bytes. */
  datatype Sealed = Sealed(tag: seq<byte>, content: seq<byte>)

  /** The hex form `encrypt` returns. */
  function Format(iv: seq<byte>, s: Sealed): string {
    ToHex(iv) + ":" + ToHex(s.tag) + ":" + ToHex(s.content)
  }

  /** `encrypt(text)`, with `iv` the random bytes drawn and `seal(key, iv, text)` the
      AES-256-GCM encryption. */
  function Encrypt(text: string, env: Option<string>, base64: string -> seq<byte>,
                   iv: seq<byte>, seal: (seq<byte>, seq<byte>, string) -> Sealed): Result<string, string>
  {
    if text == "" then Err(EncryptEmpty)
    else
      match GetKey(env, base64)
      case Err(e) => Err(e)
      case Ok(key) => Ok(Format(iv, seal(key, iv, text)))
  }

  /** `decrypt(encryptedText)`, with `open(key, iv, tag, content)` the AES-256-GCM
      decryption (`None` when it throws). The key is read before the format is looked at. */
  function Decrypt(encryptedText: string, env: Option<string>, base64: string -> seq<byte>,
                   open: (seq<byte>, seq<byte>, seq<byte>, seq<byte>) -> Option<string>): Result<string, string>
  {
    if encryptedText == "" then Err(DecryptEmpty)
    else
      match GetKey(env, base64)
      case Err(e) => Err(e)
      case Ok(key) =>
        var parts := Text.Split(encryptedText, ':');
        if |parts| != 3 then Err(WrongParts)
        else if !Text.HexRegex(parts[0]) || |parts[0]| != IvLength * 2 then Err(BadIv)
        else if !Text.HexRegex(parts[1]) || |parts[1]| != AuthTagLength * 2 then Err(BadTag)
        else if !Text.HexRegex(parts[2]) then Err(BadContent)
        else
          match open(key, FromHex(parts[0]), FromHex(parts[1]), FromHex(parts[2]))
          case None => Err(CipherFailed)
          case Some(plain) => Ok(plain)
  }

  /** `generateKey()`, with `random` the 32 bytes drawn: their hex form. */
  function GenerateKey(random: seq<byte>): (r: string)
    requires |random| == KeyLength
    ensures |r| == 64 && Text.HexRegex(r)
  {
    ToHex(random)
  }

  /** `isEncrypted(value)`: three parts, the first 24 hex digits and the second 32; the
      third is not looked at. */
  predicate IsEncrypted(value: string) {
    value != "" &&
    var parts := Text.Split(value, ':');
    |parts| == 3
    && Text.HexRegex(parts[0]) && |parts[0]| == IvLength * 2
    && Text.HexRegex(parts[1]) && |parts[1]| == AuthTagLength * 2
  }

  /** `safeDecrypt(value)`: the empty string and text not in the encrypted format come
      back as they are. */
  function SafeDecrypt(value: string, env: Option<string>, base64: string -> seq<byte>,
                       open: (seq<byte>, seq<byte>, seq<byte>, seq<byte>) -> Option<string>): Result<string, string>
  {
    if value == "" then Ok(value)
    else if IsEncrypted(value) then Decrypt(value, env, base64, open)
    else Ok(value)
  }

  // ---------------------------------------------------------------------------------
  // Properties

  /** Hex decoding undoes hex encoding. */
  lemma {:induction false} HexRoundTrip(b: seq<byte>)
    ensures FromHex(ToHex(b)) == b
  {
    if |b| > 0 {
      var h := ToHex(b);
      assert h[2..] == ToHex(b[1..]);
      HexRoundTrip(b[1..]);
      var hi := b[0] as int / 16;
      var lo := b[0] as int % 16;
      assert HexValue(HexChar(hi)) == hi && HexValue(HexChar(lo)) == lo;
      assert [b[0]] + b[1..] == b;
    }
  }

  lemma HexInjective(a: seq<byte>, b: seq<byte>)
    requires ToHex(a) == ToHex(b)
    ensures a == b
  {
    HexRoundTrip(a);
    HexRoundTrip(b);
  }

  /** The output splits into exactly the three hex parts. */
  lemma FormatParts(iv: seq<byte>, s: Sealed)
    ensures Text.Split(Format(iv, s), ':') == [ToHex(iv), ToHex(s.tag), ToHex(s.content)]
  {
    var a, b, c := ToHex(iv), ToHex(s.tag), ToHex(s.content);
    assert Format(iv, s) == a + [':'] + (b + [':'] + c);
    Text.SplitAt(a, b + [':'] + c, ':');
    Text.SplitAt(b, c, ':');
    Text.SplitWithout(c, ':');
  }

  /** Both operations refuse the empty string before reading the key. */
  lemma EmptyRejected(env: Option<string>, base64: string -> seq<byte>, iv: seq<byte>,
                      seal: (seq<byte>, seq<byte>, string) -> Sealed,
                      open: (seq<byte>, seq<byte>, seq<byte>, seq<byte>) -> Option<string>)
    ensures Encrypt("", env, base64, iv, seal) == Err(EncryptEmpty)
    ensures Decrypt("", env, base64, open) == Err(DecryptEmpty)
  {
  }

  /** The key: unset or empty is refused; 64 hex digits take the hex path and always
      give 32 bytes; anything else takes the Base64 path; a success has 32 bytes. */
  lemma KeyPaths(env: Option<string>, base64: string -> seq<byte>)
    ensures GetKey(env, base64).Ok? ==> |GetKey(env, base64).value| == 32
    ensures env == None || env == Some("") ==> GetKey(env, base64) == Err(KeyNotSet)
    ensures env.Some? && |env.value| == 64 && Text.HexRegex(env.value) ==>
      GetKey(env, base64) == Ok(FromHex(env.value))
    ensures env.Some? && env.value != "" && !(|env.value| == 64 && Text.HexRegex(env.value)) ==>
      GetKey(env, base64) == if |base64(env.value)| == 32 then Ok(base64(env.value)) else Err(KeyWrongLength)
  {
  }

  /** A generated key, put in `ENCRYPTION_KEY`, takes the hex path and gives back the
      bytes drawn, whatever the Base64 decoder does. */
  lemma GeneratedKeyAccepted(random: seq<byte>, base64: string -> seq<byte>)
    requires |random| == KeyLength
    ensures GetKey(Some(GenerateKey(random)), base64) == Ok(random)
  {
    HexRoundTrip(random);
  }

  /** An encryption with a 12-byte IV and a 16-byte tag is in the encrypted format, and
      the third part is non-empty hex when the cipher produced bytes. */
  lemma EncryptedFormat(iv: seq<byte>, s: Sealed)
    requires |iv| == IvLength && |s.tag| == AuthTagLength
    ensures IsEncrypted(Format(iv, s))
    ensures |s.content| > 0 ==> Text.HexRegex(Text.Split(Format(iv, s), ':')[2])
  {
    FormatParts(iv, s);
  }

  lemma EncryptIsEncrypted(text: string, env: Option<string>, base64: string -> seq<byte>,
                           iv: seq<byte>, seal: (seq<byte>, seq<byte>, string) -> Sealed)
    requires Encrypt(text, env, base64, iv, seal).Ok? && |iv| == IvLength
    requires |seal(GetKey(env, base64).value, iv, text).tag| == AuthTagLength
    ensures IsEncrypted(Encrypt(text, env, base64, iv, seal).value)
  {
    EncryptedFormat(iv, seal(GetKey(env, base64).value, iv, text));
  }

  /** Decryption undoes encryption, given the cipher's own contract: opening what it
      sealed, with the same key and IV, gives the text back. */
  lemma RoundTrip(text: string, env: Option<string>, base64: string -> seq<byte>, iv: seq<byte>,
                  seal: (seq<byte>, seq<byte>, string) -> Sealed,
                  open: (seq<byte>, seq<byte>, seq<byte>, seq<byte>) -> Option<string>)
    requires text != "" && GetKey(env, base64).Ok? && |iv| == IvLength
    requires var s := seal(GetKey(env, base64).value, iv, text);
      |s.tag| == AuthTagLength && |s.content| > 0 && open(GetKey(env, base64).value, iv, s.tag, s.content) == Some(text)
    ensures Decrypt(Encrypt(text, env, base64, iv, seal).value, env, base64, open) == Ok(text)
  {
    var key := GetKey(env, base64).value;
    var s := seal(key, iv, text);
    FormatParts(iv, s);
    HexRoundTrip(iv);
    HexRoundTrip(s.tag);
    HexRoundTrip(s.content);
  }

  /** Two encryptions under different IVs never give the same text. */
  lemma FreshIvsDiffer(t1: string, t2: string, env: Option<string>, base64: string -> seq<byte>,
                       iv1: seq<byte>, iv2: seq<byte>, seal: (seq<byte>, seq<byte>, string) -> Sealed)
    requires Encrypt(t1, env, base64, iv1, seal).Ok? && Encrypt(t2, env, base64, iv2, seal).Ok? && iv1 != iv2
    ensures Encrypt(t1, env, base64, iv1, seal) != Encrypt(t2, env, base64, iv2, seal)
  {
    var key := GetKey(env, base64).value;
    var s1, s2 := seal(key, iv1, t1), seal(key, iv2, t2);
    FormatParts(iv1, s1);
    FormatParts(iv2, s2);
    if Format(iv1, s1) == Format(iv2, s2) {
      HexInjective(iv1, iv2);
    }
  }

  /** Format errors come before the cipher: for text that is not in the full format the
      outcome does not depend on the cipher at all. */
  lemma FormatBeforeCipher(encryptedText: string, env: Option<string>, base64: string -> seq<byte>,
                           open1: (seq<byte>, seq<byte>, seq<byte>, seq<byte>) -> Option<string>,
                           open2: (seq<byte>, seq<byte>, seq<byte>, seq<byte>) -> Option<string>)
    requires !IsEncrypted(encryptedText) || !Text.HexRegex(Text.Split(encryptedText, ':')[2])
    ensures Decrypt(encryptedText, env, base64, open1) == Decrypt(encryptedText, env, base64, open2)
    ensures Decrypt(encryptedText, env, base64, open1).Err?
  {
  }

  /** A successful decryption was of text in the encrypted format. */
  lemma DecryptedWasEncrypted(encryptedText: string, env: Option<string>, base64: string -> seq<byte>,
                              open: (seq<byte>, seq<byte>, seq<byte>, seq<byte>) -> Option<string>)
    requires Decrypt(encryptedText, env, base64, open).Ok?
    ensures IsEncrypted(encryptedText)
  {
  }

  /** `safeDecrypt` leaves plain values alone and decrypts the rest. */
  lemma SafeDecryptCases(value: string, env: Option<string>, base64: string -> seq<byte>,
                         open: (seq<byte>, seq<byte>, seq<byte>, seq<byte>) -> Option<string>)
    ensures !IsEncrypted(value) ==> SafeDecrypt(value, env, base64, open) == Ok(value)
    ensures IsEncrypted(value) ==> SafeDecrypt(value, env, base64, open) == Decrypt(value, env, base64, open)
  {
  }

  /** The format check of `isEncrypted` is weaker than `decrypt`'s: an empty third part
      passes it, so `safeDecrypt` throws on such a value instead of returning it. */
  lemma EmptyContentPassesCheck(iv: seq<byte>, tag: seq<byte>, env: Option<string>, base64: string -> seq<byte>,
                                open: (seq<byte>, seq<byte>, seq<byte>, seq<byte>) -> Option<string>)
    requires |iv| == IvLength && |tag| == AuthTagLength && GetKey(env, base64).Ok?
    ensures IsEncrypted(Format(iv, Sealed(tag, [])))
    ensures SafeDecrypt(Format(iv, Sealed(tag, [])), env, base64, open) == Err(BadContent)
  {
    FormatParts(iv, Sealed(tag, []));
  }
}
