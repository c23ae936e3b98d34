/**
 * GeneratePassword (cmd/udm/utils.go): a password of `length` characters,
 * each drawn uniformly from a fixed character set by crypto/rand.
 */
module Password {
  import opened Wrappers

  /** The 89 characters a password is made of. */
  const Charset: string := "abcdefghijklmnopqrstuvwxyz" + "ABCDEFGHIJKLMNOPQRSTUVWXYZ"
                           + "0123456789" + "!@#$%^&*()-_=+[]{}|;:,.<>?/"

  /** The longest password GeneratePassword makes. */
  const MaxLength: int := 64

  /** What `rand.Int(rand.Reader, len(charset))` can return: an index into
      the character set. */
  type CharIndex = i: int | 0 <= i < |Charset|

  /** The i-th call of `rand.Int`: an index, or None when it failed. */
  type Draws = nat -> Option<CharIndex>

  datatype PasswordError = LengthOutOfRange | RandomFailed {
    function Message(): string {
      match this
      case LengthOutOfRange => "password length must be between 1 and 64"
      case RandomFailed => "failed to generate random character"
    }
  }

  /** Every one of the first `n` draws succeeded. */
  predicate AllDrawn(draw: Draws, n: int) {
    forall i: nat :: i < n ==> draw(i).Some?
  }

  /** GeneratePassword: fills a buffer one character per draw. A length
      outside 1..64 or a failed draw yields "" and an error; otherwise
      character i is the charset entry the i-th draw picked. */
  method GeneratePassword(length: int, draw: Draws) returns (password: string, err: Option<PasswordError>)
    ensures (length <= 0 || length > MaxLength) <==> err == Some(LengthOutOfRange)
    ensures err == Some(RandomFailed) <==> 0 < length <= MaxLength && !AllDrawn(draw, length)
    ensures err.Some? ==> password == ""
    ensures err.None? ==> |password| == length
    ensures err.None? ==> forall i :: 0 <= i < |password| ==> password[i] == Charset[draw(i).value]
    ensures forall c :: c in password ==> c in Charset
  {
    if length <= 0 || length > MaxLength {
      return "", Some(LengthOutOfRange);
    }
    var buffer := new char[length];
    var i := 0;
    while i < length
      invariant 0 <= i <= length
      invariant AllDrawn(draw, i)
      invariant forall k :: 0 <= k < i ==> buffer[k] == Charset[draw(k).value]
    {
      var charIndex := draw(i);
      if charIndex.None? {
        return "", Some(RandomFailed);
      }
      buffer[i] := Charset[charIndex.value];
      i := i + 1;
    }
    password, err := buffer[..], None;
    DrawnInCharset(password, draw);
  }

  /** Every character of a password built from draws is in the charset. */
  lemma {:induction false} DrawnInCharset(password: string, draw: Draws)
    requires AllDrawn(draw, |password|)
    requires forall i :: 0 <= i < |password| ==> password[i] == Charset[draw(i).value]
    ensures forall c :: c in password ==> c in Charset
  {
    forall c | c in password
      ensures c in Charset
    {
      var i :| 0 <= i < |password| && password[i] == c;
      assert draw(i).Some?;
      assert c == Charset[draw(i).value];
    }
  }
}
