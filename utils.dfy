/** String helpers (src/lib/utils.ts). */
module Utils {
  import opened Js

  const ELLIPSIS := "..."

  /** `truncateText`: text that fits is kept as it is; longer text is cut to
      `maxLength` characters and marked with an ellipsis. */
  function TruncateText(text: string, maxLength: nat): (r: string)
    ensures |text| <= maxLength ==> r == text
    ensures |text| > maxLength ==> |r| == maxLength + 3 && r[..maxLength] == text[..maxLength] && r[maxLength..] == ELLIPSIS
    ensures text[..Min(|text|, maxLength)] <= r
    ensures |r| <= maxLength + 3
  {
    if |text| <= maxLength then text else text[..maxLength] + ELLIPSIS
  }

  /** Truncating twice with the same bound is the same as truncating once. */
  lemma TruncateIdempotent(text: string, maxLength: nat)
    ensures TruncateText(TruncateText(text, maxLength), maxLength) == TruncateText(text, maxLength)
  {
    var once := TruncateText(text, maxLength);
    if |text| > maxLength {
      assert once[..maxLength] + ELLIPSIS == once;
    }
  }
}
