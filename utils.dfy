/** `normalize_agent_signature` of backend/app/core/utils.py. */
module Utils {
  import opened Text

  /** The signature appended to an agent's reply. */
  const Signature := "\n-- Agent Free"
  /** What the stripped text must end with to count as signed. */
  const Mark := "-- Agent Free"

  /** Leave a signed text alone; otherwise drop trailing whitespace and sign it. */
  function NormalizeAgentSignature(text: string): (r: string)
    ensures EndsWith(Strip(text), Mark) ==> r == text
    ensures !EndsWith(Strip(text), Mark) ==> r == RStrip(text) + Signature
  {
    if EndsWith(Strip(text), Mark) then text else RStrip(text) + Signature
  }

  /** Any text followed by the signature is signed. */
  lemma SignedAfterAppend(p: string)
    ensures EndsWith(Strip(p + Signature), Mark)
  {
    var s := p + ['\n'];
    assert Signature == ['\n'] + Mark;
    assert s + Mark == p + Signature;
    assert !IsSpace(Mark[0]) && !IsSpace(Mark[|Mark| - 1]);
    StripKeepsSuffix(s, Mark);
  }

  /** The result, stripped, always ends with the signature. */
  lemma AlwaysSigned(text: string)
    ensures EndsWith(Strip(NormalizeAgentSignature(text)), Mark)
  {
    if !EndsWith(Strip(text), Mark) {
      SignedAfterAppend(RStrip(text));
    }
  }

  lemma NormalizeIdempotent(text: string)
    ensures NormalizeAgentSignature(NormalizeAgentSignature(text)) == NormalizeAgentSignature(text)
  {
    AlwaysSigned(text);
  }
}
