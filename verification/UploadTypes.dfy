/** The values the multipart upload code passes around. */
module UploadTypes {
  import opened Basics
  import opened Decimal

  // A multipart session as the server names it.
  datatype Session = Session(docID: string, rev: string, uploadID: string)

  // What partinfo holds for a part: its ETag and size.
  datatype PartInfo = PartInfo(etag: string, size: int)

  // What the resume state holds for a completed part.
  datatype ResumePart = ResumePart(etag: string, size: int, sha256: string)

  // Everything a resume state is bound to besides the session.
  datatype Binding = Binding(
    sourceIdentity: string, size: int, modTimeNsec: int, parentID: string, encodedLeaf: string,
    existingID: string, existingRev: string, partSize: int, partCount: int)

  datatype ResumeState = ResumeState(
    version: int, binding: Binding, session: Session, completed: map<string, ResumePart>)

  const RESUME_VERSION := 3

  // SHA-256 in hexadecimal: any function.
  type Hash = Bytes -> string

  function PartInfoOf(completed: map<string, ResumePart>): map<string, PartInfo> {
    map key | key in completed :: PartInfo(completed[key].etag, completed[key].size)
  }

  // The key of part n, counting parts from 1.
  function Key(n: nat): string {
    Format(n)
  }

  function Keys(ns: set<int>): set<string> {
    set n | n in ns && n >= 0 :: Key(n)
  }

  lemma {:induction false} KeysSize(lo: nat, hi: int)
    ensures |Keys(Span(lo, hi))| == |Span(lo, hi)|
    decreases hi - lo
  {
    if lo <= hi {
      KeysSize(lo, hi - 1);
      forall n | n in Span(lo, hi - 1)
        ensures Key(n) != Key(hi)
      {
        if Key(n) == Key(hi) {
          FormatInjective(n, hi);
        }
      }
      assert Keys(Span(lo, hi)) == Keys(Span(lo, hi - 1)) + {Key(hi)};
    } else {
      assert Keys(Span(lo, hi)) == {};
    }
  }
}
