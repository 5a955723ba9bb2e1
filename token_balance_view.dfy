/** The pure pieces of the token balance row: the placeholder icon's colour,
    derived from the symbol by a small hash, its initial, and the subtitle. */
module TokenBalanceView {
  import opened Js
  import opened Tokens

  const Colors: seq<string> := [
    "bg-red-500", "bg-blue-500", "bg-green-500",
    "bg-yellow-500", "bg-purple-500", "bg-pink-500",
    "bg-indigo-500", "bg-orange-500", "bg-teal-500"
  ]

  const UnknownTokenName: string := "未知代币"

  /** The sum of the character codes of `s` (`charCodeAt`), taken left to right. */
  function CodeSum(s: string): (r: nat)
  {
    if s == [] then 0 else CodeSum(s[..|s| - 1]) + s[|s| - 1] as nat
  }

  /** Summing a concatenation is summing the parts. */
  lemma {:induction false} CodeSumConcat(a: string, b: string)
    ensures CodeSum(a + b) == CodeSum(a) + CodeSum(b)
  {
    if b != [] {
      assert (a + b)[..|a + b| - 1] == a + b[..|b| - 1];
      CodeSumConcat(a, b[..|b| - 1]);
    } else {
      assert a + b == a;
    }
  }

  /** The colour depends only on which characters occur how often: any
      rearrangement of a symbol sums to the same code total. */
  lemma {:induction false} CodeSumPermutation(s: string, t: string)
    requires multiset(s) == multiset(t)
    ensures CodeSum(s) == CodeSum(t)
  {
    if t != [] {
      var c := t[0];
      assert c in multiset(t);
      assert c in s;
      var i :| 0 <= i < |s| && s[i] == c;
      assert s == s[..i] + [c] + s[i + 1..];
      var rest := s[..i] + s[i + 1..];
      assert t == [c] + t[1..];
      assert multiset(s) == multiset(s[..i]) + multiset{c} + multiset(s[i + 1..]);
      assert multiset(t) == multiset{c} + multiset(t[1..]);
      assert multiset(rest) == multiset(s) - multiset{c};
      assert multiset(t[1..]) == multiset(t) - multiset{c};
      CodeSumPermutation(rest, t[1..]);
      CodeSumConcat(s[..i] + [c], s[i + 1..]);
      CodeSumConcat(s[..i], [c]);
      CodeSumConcat(s[..i], s[i + 1..]);
      CodeSumConcat([c], t[1..]);
      assert CodeSum([c]) == c as nat by {
        assert [c][..0] == [];
      }
    } else {
      assert s == [];
    }
  }

  /** `generateColorFromSymbol(symbol)`: `hash = (hash + code) % 9` over the
      characters, then `colors[hash]`. The index never leaves [0, 9). */
  method ColorFromSymbol(symbol: string) returns (color: string)
    ensures color == Colors[CodeSum(symbol) % |Colors|]
    ensures symbol == "" ==> color == "bg-red-500"
  {
    var hash := 0;
    var i := 0;
    while i < |symbol|
      invariant 0 <= i <= |symbol|
      invariant 0 <= hash < |Colors|
      invariant hash == CodeSum(symbol[..i]) % |Colors|
    {
      assert symbol[..i + 1][..i] == symbol[..i];
      hash := (hash + symbol[i] as int) % |Colors|;
      i := i + 1;
    }
    assert symbol[..i] == symbol;
    color := Colors[hash];
  }

  /** `token.symbol.slice(0, 1)`: the first character, or `''` for an empty
      symbol. */
  function Initial(symbol: string): (r: string)
    ensures symbol == "" ==> r == ""
    ensures symbol != "" ==> r == [symbol[0]]
  {
    Slice(symbol, 0, 1)
  }

  /** `token.name || '未知代币'`: an absent or empty name shows the placeholder. */
  function Subtitle(token: Token): (r: string)
    ensures r != ""
    ensures TruthyOpt(token.name) ==> r == token.name.value
    ensures !TruthyOpt(token.name) ==> r == UnknownTokenName
  {
    if TruthyOpt(token.name) then token.name.value else UnknownTokenName
  }
}
