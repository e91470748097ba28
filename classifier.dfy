/**
 * The disconnect classifier: a first-match decision table over the close
 * code and the lower-cased reason and error text, deciding whether a lost
 * connection is retried.
 */
module Classifier {

  /** The metadata a disconnect carries; a field the event does not supply is `0` or `""`. */
  datatype Meta = Meta(code: int, reason: string, message: string)

  datatype Reason = Unauthorized | NetworkError | IdleTimeout | SocketClosed

  datatype Verdict = Verdict(recoverable: bool, reason: Reason)

  /** The text of a reason as it appears in the runtime's `lastError`. */
  function ReasonName(r: Reason): (name: string)
    ensures name != ""
  {
    match r
    case Unauthorized => "unauthorized"
    case NetworkError => "network_error"
    case IdleTimeout => "idle_timeout"
    case SocketClosed => "socket_closed"
  }

  /** Close codes that signal rejected credentials or a policy violation. */
  const AuthCloseCodes: set<int> := {1008, 4001, 4003, 4401, 4403}

  /** The abnormal-closure code, treated as a network failure. */
  const AbnormalClosure: int := 1006

  function LowerChar(c: char): char
  {
    if 'A' <= c <= 'Z' then (c as int - 'A' as int + 'a' as int) as char else c
  }

  /** `toLowerCase()` on the letters A to Z. */
  function Lower(s: string): (r: string)
    ensures |r| == |s|
    ensures forall i | 0 <= i < |s| :: r[i] == LowerChar(s[i])
    ensures forall i | 0 <= i < |r| :: !('A' <= r[i] <= 'Z')
    ensures forall i | 0 <= i < |s| && !('A' <= s[i] <= 'Z') :: r[i] == s[i]
  {
    seq(|s|, i requires 0 <= i < |s| => LowerChar(s[i]))
  }

  /** Text without capital letters is left as it is. */
  lemma LowerKeepsLowerCase(s: string)
    requires forall i | 0 <= i < |s| :: !('A' <= s[i] <= 'Z')
    ensures Lower(s) == s
  {
  }

  /** `m` occurs in `s` starting at position `i`. */
  predicate OccursAt(s: string, m: string, i: int)
  {
    0 <= i <= |s| - |m| && s[i..i + |m|] == m
  }

  /** The marker `m` occurs somewhere in `s`. */
  predicate Contains(s: string, m: string)
  {
    exists i | 0 <= i <= |s| - |m| :: OccursAt(s, m, i)
  }

  /** A text that contains `u + v` contains `v`. */
  lemma ContainsSuffix(s: string, u: string, v: string)
    requires Contains(s, u + v)
    ensures Contains(s, v)
  {
    var i :| 0 <= i <= |s| - |u + v| && OccursAt(s, u + v, i);
    assert s[i + |u|..i + |u| + |v|] == s[i..i + |u + v|][|u|..];
    assert (u + v)[|u|..] == v;
    assert OccursAt(s, v, i + |u|);
  }

  /** A non-empty marker whose first letter occurs at no position it could start at is not contained. */
  lemma NoOccurrence(s: string, m: string)
    requires |m| > 0
    requires forall i | 0 <= i <= |s| - |m| :: s[i] != m[0]
    ensures !Contains(s, m)
  {
    forall i | 0 <= i <= |s| - |m| ensures !OccursAt(s, m, i) {
      assert s[i..i + |m|][0] == s[i];
    }
  }

  /** The text the markers are searched in: reason and message, space separated, lower-cased. */
  function DisconnectText(m: Meta): string
  {
    Lower(Lower(m.reason) + " " + m.message)
  }

  predicate HasAuthMarker(t: string)
  {
    || Contains(t, "unauthorized") || Contains(t, "forbidden") || Contains(t, "403")
    || Contains(t, "401") || Contains(t, "channel mismatch") || Contains(t, "device mismatch")
    || Contains(t, "invalid signature")
  }

  predicate HasNetworkMarker(t: string)
  {
    Contains(t, "network") || Contains(t, "timeout") || Contains(t, "econn")
  }

  /** `classifyDisconnect(meta)` */
  function Classify(m: Meta): (v: Verdict)
    ensures v.recoverable <==> v.reason != Unauthorized
    ensures m.code in AuthCloseCodes ==> v == Verdict(false, Unauthorized)
  {
    var text := DisconnectText(m);
    if m.code in AuthCloseCodes then Verdict(false, Unauthorized)
    else if HasAuthMarker(text) then Verdict(false, Unauthorized)
    else if HasNetworkMarker(text) || m.code == AbnormalClosure then Verdict(true, NetworkError)
    else if Contains(text, "idle timeout") then Verdict(true, IdleTimeout)
    else Verdict(true, SocketClosed)
  }

  /** A disconnect is abandoned exactly when its code or its text says the credentials were refused. */
  lemma UnauthorizedExactly(m: Meta)
    ensures Classify(m).reason == Unauthorized <==>
      m.code in AuthCloseCodes || HasAuthMarker(DisconnectText(m))
  {
  }

  /** An authorization marker in the text wins over any network marker and over code 1006. */
  lemma AuthTextBeatsNetwork(m: Meta)
    requires HasAuthMarker(DisconnectText(m))
    ensures Classify(m) == Verdict(false, Unauthorized)
  {
  }

  /** The network verdict: no authorization signal, and a network marker or the abnormal-closure code. */
  lemma NetworkErrorExactly(m: Meta)
    ensures Classify(m).reason == NetworkError <==>
      && m.code !in AuthCloseCodes && !HasAuthMarker(DisconnectText(m))
      && (HasNetworkMarker(DisconnectText(m)) || m.code == AbnormalClosure)
  {
  }

  /**
   * The `idle_timeout` row of the table can never be reached: a text with
   * "idle timeout" in it already contains "timeout", which the network row
   * matches first.
   */
  lemma IdleTimeoutUnreachable(m: Meta)
    ensures Classify(m).reason != IdleTimeout
  {
    var text := DisconnectText(m);
    if Contains(text, "idle timeout") {
      assert "idle timeout" == "idle " + "timeout";
      ContainsSuffix(text, "idle ", "timeout");
    }
  }

  /** Everything that is neither unauthorized nor a network failure is a plain `socket_closed`. */
  lemma SocketClosedOtherwise(m: Meta)
    ensures Classify(m).reason == SocketClosed <==>
      && m.code !in AuthCloseCodes && m.code != AbnormalClosure
      && !HasAuthMarker(DisconnectText(m)) && !HasNetworkMarker(DisconnectText(m))
  {
    IdleTimeoutUnreachable(m);
  }

  /** The text the idle check's own close produces. */
  lemma IdleCloseText()
    ensures DisconnectText(Meta(4000, "idle timeout", "")) == "idle timeout "
  {
    LowerKeepsLowerCase("idle timeout");
    LowerKeepsLowerCase("idle timeout ");
  }

  lemma IdleCloseTextNoAuthMarker()
    ensures !HasAuthMarker("idle timeout ")
  {
    NoOccurrence("idle timeout ", "unauthorized");
    NoOccurrence("idle timeout ", "forbidden");
    NoOccurrence("idle timeout ", "403");
    NoOccurrence("idle timeout ", "401");
    NoOccurrence("idle timeout ", "channel mismatch");
    NoOccurrence("idle timeout ", "device mismatch");
    NoOccurrence("idle timeout ", "invalid signature");
  }

  /** The close the idle check issues itself, code 4000 with reason "idle timeout", is reported as a network error. */
  lemma SelfIdleCloseIsNetworkError()
    ensures Classify(Meta(4000, "idle timeout", "")) == Verdict(true, NetworkError)
  {
    IdleCloseText();
    IdleCloseTextNoAuthMarker();
    assert OccursAt("idle timeout ", "timeout", 5);
  }

  /** A close with code 4401 and no text is refused; one with code 1006 and no text is a network failure. */
  lemma CodeScenarios()
    ensures Classify(Meta(4401, "", "")) == Verdict(false, Unauthorized)
    ensures Classify(Meta(1006, "", "")).reason == NetworkError
  {
    LowerKeepsLowerCase(" ");
    var text := DisconnectText(Meta(1006, "", ""));
    assert text == " ";
  }
}
