/** The resource validator of pkg/security/validator.go: a prompt is refused
    when its UTF-8 encoding is longer than the configured limit. */
module Security {
  import opened Wrappers
  import opened GoStrings

  /** MaxPromptSize: 100 KiB. */
  const MaxPromptSize: int := 100 * 1024

  /** The text of the sentinel error ErrPromptTooLarge. */
  const ErrPromptTooLarge: string := "security: prompt exceeds maximum allowed size"

  datatype ResourceValidator = ResourceValidator(maxSize: int)

  /** The error Validate returns: it wraps ErrPromptTooLarge and carries the
      measured size and the limit. */
  datatype SizeError = PromptTooLarge(size: nat, limit: int)

  /** NewResourceValidator: a validator with the default limit. */
  function NewResourceValidator(): (v: ResourceValidator)
    ensures v.maxSize == 102400
  {
    ResourceValidator(MaxPromptSize)
  }

  /** ResourceValidator.Validate: an error exactly when the content has more
      bytes than the limit; content of exactly the limit is accepted. */
  function Validate(v: ResourceValidator, content: string): (e: Option<SizeError>)
    ensures e.Some? <==> ByteLen(content) > v.maxSize
    ensures e.Some? ==> e.value.size == ByteLen(content) && e.value.limit == v.maxSize
  {
    if ByteLen(content) > v.maxSize then Some(PromptTooLarge(ByteLen(content), v.maxSize)) else None
  }

  /** The message of the error, as `%w: size %d bytes, limit %d bytes` prints it. */
  function ErrorText(e: SizeError): string
  {
    ErrPromptTooLarge + ": size " + Itoa(e.size) + " bytes, limit " + Itoa(e.limit) + " bytes"
  }

  /** The message starts with the sentinel's text (the error wraps it). */
  lemma ErrorWrapsSentinel(e: SizeError)
    ensures HasPrefix(ErrorText(e), ErrPromptTooLarge)
  {
    var t := ErrorText(e);
    assert t == ErrPromptTooLarge + (": size " + Itoa(e.size) + " bytes, limit " + Itoa(e.limit) + " bytes");
    assert t[..|ErrPromptTooLarge|] == ErrPromptTooLarge;
  }

  /** The size in the message reads back as the measured size. */
  lemma ErrorReportsSize(e: SizeError)
    ensures var t := ErrorText(e);
            var start := |ErrPromptTooLarge| + |": size "|;
            && start + |NatToString(e.size)| <= |t|
            && t[start..start + |NatToString(e.size)|] == NatToString(e.size)
            && DecimalValue(NatToString(e.size)) == e.size
  {
    var digits := NatToString(e.size);
    var head := ErrPromptTooLarge + ": size ";
    var tail := " bytes, limit " + Itoa(e.limit) + " bytes";
    assert ErrorText(e) == head + digits + tail;
    assert (head + digits + tail)[|head|..|head| + |digits|] == digits;
    NatToStringRoundTrip(e.size);
  }

  /** The boundary: with the default validator, content of at most 102400
      bytes passes and one more byte fails. */
  lemma DefaultLimitBoundary(content: string)
    ensures Validate(NewResourceValidator(), content).None? <==> ByteLen(content) <= 102400
  {
  }

  /** pkg/security/validator_test.go:11-16: a short prompt validates. */
  lemma ShortPromptValidates(content: string)
    requires |content| <= 25600
    ensures Validate(NewResourceValidator(), content).None?
  {
    ByteLenBounds(content);
  }
}
