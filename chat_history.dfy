/** The conversation history kept in `st.session_state['chat_history']`
    (app.py): a list of `(role, text)` pairs, oldest first. This module holds
    the pure parts: which turns one streamed reply contributes, and how the
    history is rendered newest-first with a `User` or `Bot` label. */
module ChatHistory {
  import opened PyText

  const UserRole: string := "User"
  const BotRole: string := "Bot"

  /** One `(role, text)` entry of the history. */
  datatype Turn = Turn(role: string, text: string)

  /** The Bot turn a single reply fragment contributes: none when it is blank
      (its stripped text is empty, see `Strip`), otherwise one turn holding the
      fragment verbatim. */
  function FragmentTurn(f: string): seq<Turn> {
    if IsBlank(f) then [] else [Turn(BotRole, f)]
  }

  /** The Bot turns a reply stream adds to the history, in arrival order. */
  function BotTurns(fs: seq<string>): (r: seq<Turn>)
    ensures |r| <= |fs|
    ensures forall k :: 0 <= k < |r| ==> r[k].role == BotRole && !IsBlank(r[k].text)
    decreases |fs|
  {
    if fs == [] then []
    else BotTurns(fs[..|fs| - 1]) + FragmentTurn(fs[|fs| - 1])
  }

  /** Taking one more fragment of a stream adds that fragment's turn, if any,
      after the turns of the fragments before it. */
  lemma BotTurnsStep(fs: seq<string>, i: nat)
    requires i < |fs|
    ensures BotTurns(fs[..i + 1]) == BotTurns(fs[..i]) + FragmentTurn(fs[i])
  {
    assert fs[..i + 1][..i] == fs[..i];
  }

  /** The positions, in increasing order, of the fragments that are not blank. */
  function KeptIndices(fs: seq<string>): (r: seq<nat>)
    ensures forall k :: 0 <= k < |r| ==> r[k] < |fs|
    ensures forall k, l :: 0 <= k < l < |r| ==> r[k] < r[l]
    ensures forall i :: 0 <= i < |fs| ==> (i in r <==> !IsBlank(fs[i]))
    decreases |fs|
  {
    if fs == [] then []
    else
      var n := |fs| - 1;
      var r := KeptIndices(fs[..n]);
      assert forall i :: 0 <= i < n ==> fs[..n][i] == fs[i];
      if IsBlank(fs[n]) then r else r + [n]
  }

  /** A reply contributes exactly one Bot turn per non-blank fragment, holding
      that fragment's text unchanged, in the order the fragments arrived:
      dropping blanks is the only change, nothing is merged or reordered. */
  lemma {:induction false} BotTurnsSelect(fs: seq<string>)
    ensures |BotTurns(fs)| == |KeptIndices(fs)|
    ensures forall k :: 0 <= k < |BotTurns(fs)| ==>
              BotTurns(fs)[k] == Turn(BotRole, fs[KeptIndices(fs)[k]])
    decreases |fs|
  {
    if fs != [] {
      var n := |fs| - 1;
      var p := fs[..n];
      BotTurnsSelect(p);
      var turns, kept := BotTurns(p), KeptIndices(p);
      var extra := if IsBlank(fs[n]) then [] else [n];
      assert BotTurns(fs) == turns + FragmentTurn(fs[n]);
      assert KeptIndices(fs) == kept + extra;
      forall k | 0 <= k < |BotTurns(fs)|
        ensures BotTurns(fs)[k] == Turn(BotRole, fs[KeptIndices(fs)[k]])
      {
        if k < |turns| {
          assert kept[k] < n && p[kept[k]] == fs[kept[k]];
        } else {
          assert k == |kept| && KeptIndices(fs)[k] == n;
        }
      }
    }
  }

  /** The turns of a stream split at any point are the turns of its two parts,
      one after the other. */
  lemma {:induction false} BotTurnsAppend(a: seq<string>, b: seq<string>)
    ensures BotTurns(a + b) == BotTurns(a) + BotTurns(b)
    decreases |b|
  {
    if b != [] {
      var n := |b| - 1;
      assert (a + b)[..|a + b| - 1] == a + b[..n];
      BotTurnsAppend(a, b[..n]);
    } else {
      assert a + b == a;
    }
  }

  /** The number of Bot turns a reply adds equals the number of its non-blank
      fragments. */
  lemma {:induction false} BotTurnsCount(fs: seq<string>)
    ensures |BotTurns(fs)| == |set i | 0 <= i < |fs| && !IsBlank(fs[i])|
    decreases |fs|
  {
    if fs != [] {
      var n := |fs| - 1;
      var p := fs[..n];
      BotTurnsCount(p);
      var before := set i | 0 <= i < |p| && !IsBlank(p[i]);
      var after := set i | 0 <= i < |fs| && !IsBlank(fs[i]);
      var last: set<int> := if IsBlank(fs[n]) then {} else {n};
      assert after == before + last by {
        assert forall i :: 0 <= i < n ==> p[i] == fs[i];
      }
      assert |before + last| == |before| + |last| by {
        assert n !in before;
      }
      assert BotTurns(fs) == BotTurns(p) + FragmentTurn(fs[n]);
    }
  }

  /** The label the render loop shows: `User` for a User turn, `Bot` for
      anything else. */
  function Label(role: string): (l: string)
    ensures l == UserRole || l == BotRole
    ensures l == UserRole <==> role == UserRole
  {
    if role == UserRole then UserRole else BotRole
  }

  /** The markdown line shown for one turn. */
  function Line(t: Turn): string {
    "**" + Label(t.role) + ":** " + t.text
  }

  /** The lines the render loop shows, newest turn first. */
  function Rendered(h: seq<Turn>): (r: seq<string>)
    ensures |r| == |h|
    decreases |h|
  {
    if h == [] then [] else [Line(h[|h| - 1])] + Rendered(h[..|h| - 1])
  }

  /** Line `k` of the rendering is the labelled `k`-th newest turn: the
      rendering is the history reversed. */
  lemma {:induction false} RenderedAt(h: seq<Turn>, k: nat)
    requires k < |h|
    ensures Rendered(h)[k] == Line(h[|h| - 1 - k])
    decreases |h|
  {
    if k > 0 {
      RenderedAt(h[..|h| - 1], k - 1);
    }
  }

  /** Recording one more turn puts its line at the top and leaves the lines of
      the older turns, in order, below it. */
  lemma {:induction false} RenderedPush(h: seq<Turn>, t: Turn)
    ensures Rendered(h + [t]) == [Line(t)] + Rendered(h)
  {
  }
}
