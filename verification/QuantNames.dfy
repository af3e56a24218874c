/** What a model file's name says: its quant key, its auxiliary marker, and how much
    follows the quant token. */
module QuantNames {
  import opened Decimal
  import opened ShardNames
  import opened Text

  const USIZE_MAX: nat := 0xFFFF_FFFF_FFFF_FFFF

  /** Lower case without separators. */
  function Compact(token: string): string { Joined(Lower(token)) }

  function Joined(s: string): string {
    if s == [] then [] else (if s[0] == '_' || s[0] == '-' then [] else [s[0]]) + Joined(s[1..])
  }

  predicate StartsWithDigit(s: string) { s != [] && IsDigit(s[0]) }

  predicate IsQuantToken(segment: string) {
    var s := Lower(segment);
    s == "f16" || s == "f32" || s == "bf16" ||
    if "iq" <= s then StartsWithDigit(s[2..])
    else "q" <= s && StartsWithDigit(s[1..])
  }

  function WordLength(s: string): (n: nat)
    ensures n <= |s|
  {
    if s == [] || s[0] == '.' || s[0] == '-' then 0 else 1 + WordLength(s[1..])
  }

  /** The non-empty pieces between `.` and `-`. */
  function Segments(s: string): seq<string>
    decreases |s|
  {
    if s == [] then []
    else if WordLength(s) == 0 then Segments(s[1..])
    else [s[..WordLength(s)]] + Segments(s[WordLength(s)..])
  }

  function LastQuant(segments: seq<string>): (r: Option<nat>)
    ensures r.Some? ==> r.value < |segments| && IsQuantToken(segments[r.value])
    ensures r.Some? ==> forall i :: r.value < i < |segments| ==> !IsQuantToken(segments[i])
    ensures r.None? ==> forall s <- segments :: !IsQuantToken(s)
  {
    if segments == [] then None
    else
      var last := |segments| - 1;
      if IsQuantToken(segments[last]) then Some(last) else LastQuant(segments[..last])
  }

  const IMATRIX := "i1-"

  /** Imatrix markers are kept, so that static and imatrix builds stay apart. */
  function KeyOf(name: string): Option<string> {
    var stem := StripGguf(Lower(name));
    if stem.None? then None else
    var segments := Segments(SplitShard(stem.value).base);
    var at := LastQuant(segments);
    if at.None? then None else
    var key := Compact(segments[at.value]);
    var marked := at.value > 0 && segments[at.value - 1] in ["i1", "imat", "imatrix"];
    Some(if marked then IMATRIX + key else key)
  }

  /** The segments after the quant token: none for a plain build. */
  function Qualifiers(base: string): nat {
    var segments := Segments(base);
    var at := LastQuant(segments);
    if at.None? then USIZE_MAX else |segments| - at.value - 1
  }

  function AfterSlash(s: string): string
    decreases |s|
  {
    if s == [] || s[|s| - 1] == '/' || s[|s| - 1] == '\\' then [] else AfterSlash(s[..|s| - 1]) + [s[|s| - 1]]
  }

  function FirstWord(s: string): string {
    if s == [] || s[0] == '.' || s[0] == '-' || s[0] == '_' then [] else [s[0]] + FirstWord(s[1..])
  }

  /** A file that ships beside a model instead of being one. */
  predicate IsAuxiliary(name: string) {
    FirstWord(AfterSlash(Lower(name))) in ["mmproj", "mtp"]
  }

  function ShardIndex(name: string): nat {
    var shard := ShardOf(name);
    if shard.Some? then shard.value.index else 1
  }

  // ----- what a name says, told by how it is put together -----

  predicate Separates(c: char) { c == '.' || c == '-' }

  predicate Word(s: string) { s != [] && forall c <- s :: !Separates(c) }

  /** The text spells the words, separated by one or more `.` and `-`. */
  ghost predicate Spells(s: string, words: seq<string>)
    decreases |s|
  {
    if s == [] then words == []
    else if Separates(s[0]) then Spells(s[1..], words)
    else
      words != [] && Word(words[0]) && words[0] <= s &&
      (|s| > |words[0]| ==> Separates(s[|words[0]|])) && Spells(s[|words[0]|..], words[1..])
  }

  lemma {:induction false} WordLengthIs(w: string, rest: string)
    requires (forall c <- w :: !Separates(c)) && (rest != [] ==> Separates(rest[0]))
    ensures WordLength(w + rest) == |w|
  {
    if w == [] {
      AppendEmpty(rest, w);
    } else {
      assert (w + rest)[0] == w[0] && (w + rest)[1..] == w[1..] + rest && w[0] in w;
      WordLengthIs(w[1..], rest);
    }
  }

  lemma {:induction false} SegmentsSpelled(s: string, words: seq<string>)
    requires Spells(s, words)
    ensures Segments(s) == words
    decreases |s|
  {
    if s != [] {
      if Separates(s[0]) {
        SegmentsSpelled(s[1..], words);
      } else {
        var w := words[0];
        assert s == w + s[|w|..];
        WordLengthIs(w, s[|w|..]);
        SegmentsSpelled(s[|w|..], words[1..]);
        assert words == [w] + words[1..];
      }
    }
  }

  /** Every text spells some words: those it is split into. */
  lemma {:induction false} SpellsSegments(s: string)
    ensures Spells(s, Segments(s))
    decreases |s|
  {
    if s != [] {
      var n := WordLength(s);
      if n == 0 {
        SpellsSegments(s[1..]);
      } else {
        WordStops(s);
        SpellsSegments(s[n..]);
        assert Segments(s)[1..] == Segments(s[n..]);
      }
    }
  }

  lemma {:induction false} WordStops(s: string)
    ensures var n := WordLength(s); (forall c <- s[..n] :: !Separates(c)) && (n < |s| ==> Separates(s[n]))
  {
    if s != [] && !Separates(s[0]) {
      WordStops(s[1..]);
      assert s[..WordLength(s)] == [s[0]] + s[1..][..WordLength(s) - 1];
    }
  }

  /** A word follows another after a separator; the first may stand at the start. */
  lemma {:induction false} SpellsMore(s: string, words: seq<string>, sep: char, t: string, more: seq<string>)
    requires Spells(s, words) && Separates(sep) && Spells(t, more)
    ensures Spells(s + ([sep] + t), words + more)
    decreases |s|
  {
    var tail := [sep] + t;
    assert tail[1..] == t;
    if s == [] {
      AppendEmpty(tail, s);
      AppendEmpty(more, words);
    } else if Separates(s[0]) {
      assert (s + tail)[0] == s[0] && (s + tail)[1..] == s[1..] + tail;
      SpellsMore(s[1..], words, sep, t, more);
    } else {
      var w := words[0];
      assert (s + tail)[0] == s[0] && (s + tail)[|w|..] == s[|w|..] + tail;
      assert (s + tail)[..|w|] == s[..|w|] == w;
      assert (words + more)[0] == w && (words + more)[1..] == words[1..] + more;
      if |s| > |w| {
        assert (s + tail)[|w|] == s[|w|];
      } else {
        assert (s + tail)[|w|] == sep;
      }
      SpellsMore(s[|w|..], words[1..], sep, t, more);
    }
  }

  lemma SpellsWord(w: string)
    requires Word(w)
    ensures Spells(w, [w])
  {
    assert w[0] in w;
    assert w[|w|..] == [] && [w][1..] == [];
  }

  /** A quant token is one of three float names, or `q` or `iq` and a digit and anything, in either case. */
  lemma QuantTokens(token: string)
    ensures IsQuantToken(token) <==>
      var s := Lower(token);
      s in ["f16", "f32", "bf16"] ||
      (exists d, rest :: IsDigit(d) && (s == "q" + [d] + rest || s == "iq" + [d] + rest))
  {
    var s := Lower(token);
    if |s| > 2 && "iq" <= s && IsDigit(s[2]) {
      assert s == "iq" + [s[2]] + s[3..];
    }
    if |s| > 1 && "q" <= s && IsDigit(s[1]) {
      assert s == "q" + [s[1]] + s[2..];
    }
    if exists d, rest :: IsDigit(d) && (s == "q" + [d] + rest || s == "iq" + [d] + rest) {
      var d, rest :| IsDigit(d) && (s == "q" + [d] + rest || s == "iq" + [d] + rest);
      if s == "q" + [d] + rest {
        assert s[0] == 'q' && s[1] == d && s[1..][0] == d;
      } else {
        assert s[0] == 'i' && s[1] == 'q' && s[2] == d && s[2..][0] == d;
        assert "iq" <= s;
      }
    }
  }

  lemma {:induction false} LastQuantIs(before: seq<string>, token: string, after: seq<string>)
    requires IsQuantToken(token) && forall w <- after :: !IsQuantToken(w)
    ensures LastQuant(before + [token] + after) == Some(|before|)
  {
    hide IsQuantToken;
    var words := before + [token] + after;
    if after == [] {
      assert words[|words| - 1] == token;
    } else {
      var last := after[|after| - 1];
      assert words[|words| - 1] == last && last in after;
      assert words[..|words| - 1] == before + [token] + after[..|after| - 1];
      LastQuantIs(before, token, after[..|after| - 1]);
    }
  }

  ghost predicate ImatrixMark(word: string) { word == "i1" || word == "imat" || word == "imatrix" }

  /** Where the token stands among the words, and what stands before it. */
  lemma TokenStands(base: string, before: seq<string>, token: string, after: seq<string>)
    requires Spells(base, before + [token] + after)
    requires IsQuantToken(token) && forall w <- after :: !IsQuantToken(w)
    ensures Segments(base) == before + [token] + after && Segments(base)[|before|] == token
    ensures LastQuant(Segments(base)) == Some(|before|)
    ensures before != [] ==> Segments(base)[|before| - 1] == before[|before| - 1]
  {
    hide IsQuantToken, Spells, Segments, LastQuant;
    SegmentsSpelled(base, before + [token] + after);
    LastQuantIs(before, token, after);
  }

  lemma MarksAre(word: string)
    ensures word in ["i1", "imat", "imatrix"] <==> ImatrixMark(word)
  {
  }

  /** The words after the token are the qualifiers. */
  lemma AfterToken(base: string, before: seq<string>, token: string, after: seq<string>)
    requires Spells(base, before + [token] + after)
    requires IsQuantToken(token) && forall w <- after :: !IsQuantToken(w)
    ensures Qualifiers(base) == |after|
  {
    hide IsQuantToken, Spells, Segments, LastQuant;
    TokenStands(base, before, token, after);
  }

  /** The key of a file is its last quant token, marked when an imatrix word stands right
      before it: whatever else the name says, and whether or not it is a shard. */
  lemma KeyIs(name: string, base: string, before: seq<string>, token: string, after: seq<string>)
    requires Names(name, base) && Spells(base, before + [token] + after)
    requires IsQuantToken(token) && forall w <- after :: !IsQuantToken(w)
    ensures KeyOf(name) ==
      Some((if before != [] && ImatrixMark(before[|before| - 1]) then "i1-" else "") + Compact(token))
    ensures ShardParts(name).base == base && Qualifiers(base) == |after|
  {
    hide Compact, IsQuantToken, Spells, Segments, LastQuant, Lower, StripGguf, SplitShard, ImatrixMark, Qualifiers;
    TokenStands(base, before, token, after);
    AfterToken(base, before, token, after);
    if before != [] { MarksAre(before[|before| - 1]); }
    AppendEmpty(Compact(token), "");
  }

  /** The file's base, told by its name: the lower-cased name is the base, a shard suffix
      or none, and the extension. */
  ghost predicate Names(name: string, base: string) {
    StripGguf(Lower(name)).Some? && SplitShard(StripGguf(Lower(name)).value).base == base
  }

  /** A base with no shard suffix, in whatever case it is written. */
  lemma NamesWhole(name: string, base: string)
    requires Lower(name) == base + GGUF && SplitShard(base).shard.None?
    ensures Names(name, base)
  {
    Stripped(base);
  }

  /** And with one. */
  lemma NamesShard(name: string, base: string, index: string, total: string)
    requires Lower(name) == base + (("-" + index) + (OF + total)) + GGUF && AllDigits(index) && AllDigits(total)
    ensures Names(name, base)
  {
    Stripped(base + (("-" + index) + (OF + total)));
    SuffixReads(base, index, total);
  }

  /** A name without a quant token, or without the extension, has no key. */
  lemma NoKey(name: string, base: string, words: seq<string>)
    requires StripGguf(Lower(name)).None? ||
             (Names(name, base) && Spells(base, words) && forall w <- words :: !IsQuantToken(w))
    ensures KeyOf(name).None?
  {
    if StripGguf(Lower(name)).Some? {
      SegmentsSpelled(base, words);
      NoQuant(words);
    }
  }

  lemma {:induction false} NoQuant(words: seq<string>)
    requires forall w <- words :: !IsQuantToken(w)
    ensures LastQuant(words).None?
  {
    hide IsQuantToken;
    if words != [] {
      assert words[|words| - 1] in words;
      NoQuant(words[..|words| - 1]);
    }
  }

  /** Lower case without `_` and `-`, character by character. */
  lemma CompactPlus(a: string, b: string)
    ensures Compact(a + b) == Compact(a) + Compact(b)
  {
    LowerPlus(a, b);
    JoinedPlus(Lower(a), Lower(b));
  }

  lemma CompactOne(c: char)
    ensures Compact([c]) == if c == '_' || c == '-' then "" else [LowerChar(c)]
    ensures Compact("") == ""
  {
    var d := LowerChar(c);
    assert Lower([c]) == [d] && [d][1..] == [] && Lower("") == "";
    assert Joined([d]) == (if d == '_' || d == '-' then [] else [d]) + Joined([]);
  }

  lemma {:induction false} JoinedPlus(a: string, b: string)
    ensures Joined(a + b) == Joined(a) + Joined(b)
  {
    if a == [] {
      AppendEmpty(b, a);
    } else {
      assert (a + b)[0] == a[0] && (a + b)[1..] == a[1..] + b;
      JoinedPlus(a[1..], b);
      Assoc(if a[0] == '_' || a[0] == '-' then [] else [a[0]], Joined(a[1..]), Joined(b));
    }
  }

  // ----- files that ship beside a model -----

  predicate Slash(c: char) { c == '/' || c == '\\' }

  lemma {:induction false} AfterSlashIs(dir: string, file: string)
    requires (dir == [] || Slash(dir[|dir| - 1])) && forall c <- file :: !Slash(c)
    ensures AfterSlash(dir + file) == file
    decreases |file|
  {
    if file == [] {
      AppendEmpty(dir, file);
    } else {
      var front, last := file[..|file| - 1], file[|file| - 1];
      assert (dir + file)[|dir + file| - 1] == last && last in file;
      assert (dir + file)[..|dir + file| - 1] == dir + front;
      AfterSlashIs(dir, front);
      assert file == front + [last];
    }
  }

  predicate EndsWord(c: char) { Separates(c) || c == '_' }

  lemma {:induction false} FirstWordIs(word: string, rest: string)
    requires (forall c <- word :: !EndsWord(c)) && (rest != [] ==> EndsWord(rest[0]))
    ensures FirstWord(word + rest) == word
  {
    if word == [] {
      AppendEmpty(rest, word);
    } else {
      assert (word + rest)[0] == word[0] && (word + rest)[1..] == word[1..] + rest && word[0] in word;
      FirstWordIs(word[1..], rest);
      assert word == [word[0]] + word[1..];
    }
  }

  /** A file is auxiliary exactly when the first word after the last slash of its name is `mmproj` or `mtp`. */
  lemma AuxiliaryIs(name: string, dir: string, word: string, rest: string)
    requires Lower(name) == dir + (word + rest) && (dir == [] || Slash(dir[|dir| - 1]))
    requires (forall c <- word :: !EndsWord(c) && !Slash(c)) && (forall c <- rest :: !Slash(c))
    requires rest != [] ==> EndsWord(rest[0])
    ensures IsAuxiliary(name) <==> word == "mmproj" || word == "mtp"
  {
    AfterSlashIs(dir, word + rest);
    FirstWordIs(word, rest);
  }

  /** The static and the imatrix build of one quant have different keys. */
  lemma BuildsDiffer(fixed: string, imatrix: string, base: string, base': string, before: seq<string>, token: string)
    requires Names(fixed, base) && Spells(base, before + [token] + [])
    requires Names(imatrix, base') && Spells(base', before + ["i1"] + [token] + [])
    requires IsQuantToken(token) && (before == [] || !ImatrixMark(before[|before| - 1]))
    ensures KeyOf(fixed) == Some(Compact(token)) && KeyOf(imatrix) == Some("i1-" + Compact(token))
    ensures KeyOf(fixed) != KeyOf(imatrix)
  {
    hide KeyOf, Names, Spells, Compact, IsQuantToken;
    KeyIs(fixed, base, before, token, []);
    KeyIs(imatrix, base', before + ["i1"], token, []);
    AppendEmpty(Compact(token), "");
    assert |"i1-" + Compact(token)| != |Compact(token)|;
  }
}
