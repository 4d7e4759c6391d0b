/** The blog creation form (`CreateBlog`): a title that must be at least three UTF-16 code
    units long once trimmed, a content field and a publish switch; submitting posts them,
    resets the form on success and keeps it on failure. */
module CreateBlog {
  import opened JsValues

  /** The characters `String.prototype.trim` removes: the ECMAScript WhiteSpace and
      LineTerminator code points. */
  predicate IsJsSpace(c: char) {
    var n := c as int;
    n == 0x09 || n == 0x0A || n == 0x0B || n == 0x0C || n == 0x0D || n == 0x20
    || n == 0xA0 || n == 0x1680 || (0x2000 <= n <= 0x200A) || n == 0x2028 || n == 0x2029
    || n == 0x202F || n == 0x205F || n == 0x3000 || n == 0xFEFF
  }

  predicate AllSpace(s: string) {
    forall i :: 0 <= i < |s| ==> IsJsSpace(s[i])
  }

  /** Drops the leading whitespace. */
  function TrimStart(s: string): (r: string)
    ensures |r| <= |s| && r == s[|s| - |r|..]
    ensures AllSpace(s[..|s| - |r|])
    ensures r == [] || !IsJsSpace(r[0])
  {
    if s != [] && IsJsSpace(s[0]) then
      var r := TrimStart(s[1..]);
      assert AllSpace(s[..|s| - |r|]) by {
        forall i | 0 < i < |s| - |r| ensures IsJsSpace(s[i]) {
          assert s[i] == s[1..][..|s| - 1 - |r|][i - 1];
        }
      }
      r
    else s
  }

  /** Drops the trailing whitespace. */
  function TrimEnd(s: string): (r: string)
    ensures |r| <= |s| && r == s[..|r|]
    ensures AllSpace(s[|r|..])
    ensures r == [] || !IsJsSpace(r[|r| - 1])
  {
    if s != [] && IsJsSpace(s[|s| - 1]) then
      var r := TrimEnd(s[..|s| - 1]);
      assert AllSpace(s[|r|..]) by {
        forall i | 0 <= i < |s| - |r| - 1 ensures IsJsSpace(s[|r|..][i]) {
          assert s[|r|..][i] == s[..|s| - 1][|r|..][i];
        }
      }
      r
    else s
  }

  /** `s.trim()`. */
  function Trim(s: string): (r: string)
    ensures |r| <= |s|
    ensures r == [] <==> AllSpace(s)
    ensures r == [] || (!IsJsSpace(r[0]) && !IsJsSpace(r[|r| - 1]))
  {
    var t := TrimStart(s);
    assert s == s[..|s| - |t|] + t;
    TrimEnd(t)
  }

  /** The trimmed string is the input with a whitespace-only head and tail cut off. */
  lemma TrimIsInfix(s: string)
    ensures exists i, j :: 0 <= i <= j <= |s| && Trim(s) == s[i..j] && AllSpace(s[..i]) && AllSpace(s[j..])
  {
    var t := TrimStart(s);
    var r := TrimEnd(t);
    var i := |s| - |t|;
    var j := i + |r|;
    assert Trim(s) == r == s[i..j];
    assert AllSpace(s[j..]) by {
      assert s[j..] == t[|r|..];
    }
    assert 0 <= i <= j <= |s| && Trim(s) == s[i..j] && AllSpace(s[..i]) && AllSpace(s[j..]);
  }

  /** `.length` of a JavaScript string: code points above U+FFFF take two UTF-16 units. */
  function Utf16Length(s: string): (n: nat)
    ensures |s| <= n <= 2 * |s|
  {
    if s == [] then 0
    else (if s[0] as int >= 0x10000 then 2 else 1) + Utf16Length(s[1..])
  }

  /** Code units add up: the length of a concatenation is the sum of the lengths. */
  lemma {:induction false} Utf16LengthAppend(a: string, b: string)
    ensures Utf16Length(a + b) == Utf16Length(a) + Utf16Length(b)
  {
    if a == [] {
      assert a + b == b;
    } else {
      assert (a + b)[0] == a[0];
      assert (a + b)[1..] == a[1..] + b;
      Utf16LengthAppend(a[1..], b);
    }
  }

  /** `isValid`: the trimmed title is at least three code units long, so it has at least
      two characters, and three characters are always enough. */
  predicate IsValid(title: string)
    ensures IsValid(title) ==> |Trim(title)| >= 2
    ensures |Trim(title)| >= 3 ==> IsValid(title)
  {
    Utf16Length(Trim(title)) >= 3
  }

  /** The submit button's `disabled`: a submission in flight always disables it; with
      none in flight it is disabled exactly when the title is invalid. */
  predicate SubmitDisabled(title: string, loading: bool)
    ensures loading ==> SubmitDisabled(title, loading)
    ensures !loading ==> (SubmitDisabled(title, loading) <==> !IsValid(title))
  {
    !IsValid(title) || loading
  }

  lemma {:induction false} TrimStartSkipsSpaces(pre: string, x: string)
    requires AllSpace(pre)
    ensures TrimStart(pre + x) == TrimStart(x)
  {
    if pre != [] {
      assert (pre + x)[0] == pre[0];
      assert (pre + x)[1..] == pre[1..] + x;
      TrimStartSkipsSpaces(pre[1..], x);
    } else {
      assert pre + x == x;
    }
  }

  lemma {:induction false} TrimEndSkipsSpaces(x: string, post: string)
    requires AllSpace(post)
    ensures TrimEnd(x + post) == TrimEnd(x)
    decreases |post|
  {
    if post != [] {
      var xp := x + post;
      assert xp[|xp| - 1] == post[|post| - 1];
      assert xp[..|xp| - 1] == x + post[..|post| - 1];
      TrimEndSkipsSpaces(x, post[..|post| - 1]);
    } else {
      assert x + post == x;
    }
  }

  /** Leading-space trimming does not reach past the first visible character. */
  lemma {:induction false} TrimStartAppend(x: string, post: string)
    requires !AllSpace(x)
    ensures TrimStart(x + post) == TrimStart(x) + post
  {
    assert x != [];
    var xp := x + post;
    assert xp[0] == x[0];
    if IsJsSpace(x[0]) {
      assert xp[1..] == x[1..] + post;
      TrimStartAppend(x[1..], post);
    }
  }

  /** Whitespace around a title never changes its validity. */
  lemma TrimIgnoresPadding(pre: string, t: string, post: string)
    requires AllSpace(pre) && AllSpace(post)
    ensures Trim(pre + t + post) == Trim(t)
    ensures IsValid(pre + t + post) == IsValid(t)
  {
    assert pre + t + post == pre + (t + post);
    TrimStartSkipsSpaces(pre, t + post);
    if AllSpace(t) {
      TrimStartSkipsSpaces(t, post);
      assert post + [] == post;
      TrimStartSkipsSpaces(post, []);
      assert TrimStart(t + post) == [];
      assert Trim(t) == [];
    } else {
      TrimStartAppend(t, post);
      TrimEndSkipsSpaces(TrimStart(t), post);
    }
  }

  /** A string that neither begins nor ends with whitespace is its own trim. */
  lemma TrimOfTrimmed(s: string)
    requires s == [] || (!IsJsSpace(s[0]) && !IsJsSpace(s[|s| - 1]))
    ensures Trim(s) == s
  {
    assert TrimStart(s) == s;
  }

  /** Inside the basic plane every character is one code unit. */
  lemma {:induction false} Utf16LengthBmp(s: string)
    requires forall i :: 0 <= i < |s| ==> s[i] as int < 0x10000
    ensures Utf16Length(s) == |s|
  {
    if s != [] {
      Utf16LengthBmp(s[1..]);
    }
  }

  /** A title with no visible character, such as the reset title "", is invalid. */
  lemma BlankTitleInvalid(title: string)
    requires AllSpace(title)
    ensures !IsValid(title)
  {
  }

  /** A title that is its own trim is valid exactly when it has three code units. */
  lemma TrimmedTitleValidity(s: string)
    requires s == [] || (!IsJsSpace(s[0]) && !IsJsSpace(s[|s| - 1]))
    ensures IsValid(s) <==> Utf16Length(s) >= 3
  {
    TrimOfTrimmed(s);
  }

  /** The title boundary: two visible basic-plane characters are too short ... */
  lemma TwoLetterTitleInvalid(a: char, b: char)
    requires !IsJsSpace(a) && !IsJsSpace(b) && a as int < 0x10000 && b as int < 0x10000
    ensures !IsValid([a, b])
  {
    TrimmedTitleValidity([a, b]);
    Utf16LengthBmp([a, b]);
  }

  /** ... and three are enough. */
  lemma ThreeLetterTitleValid(a: char, b: char, c: char)
    requires !IsJsSpace(a) && !IsJsSpace(c)
    requires a as int < 0x10000 && b as int < 0x10000 && c as int < 0x10000
    ensures IsValid([a, b, c])
  {
    TrimmedTitleValidity([a, b, c]);
    Utf16LengthBmp([a, b, c]);
  }

  /** Padding does not lengthen a title: a two-letter title between spaces is as short as
      it was without them. */
  lemma PaddedTitleStillShort(a: char, b: char)
    requires !IsJsSpace(a) && !IsJsSpace(b) && a as int < 0x10000 && b as int < 0x10000
    ensures !IsValid([' ', a, b, ' '])
  {
    assert [' '] + [a, b] + [' '] == [' ', a, b, ' '];
    TrimIgnoresPadding([' '], [a, b], [' ']);
    TwoLetterTitleInvalid(a, b);
  }

  /** The length is counted in UTF-16 code units: two visible characters are enough when
      one of them lies outside the basic plane. */
  lemma ValidityCountsCodeUnits(a: char, e: char)
    requires !IsJsSpace(a) && !IsJsSpace(e) && e as int >= 0x10000
    ensures IsValid([a, e])
  {
    var s := [a, e];
    TrimmedTitleValidity(s);
    assert Utf16Length(s) == (if a as int >= 0x10000 then 2 else 1) + Utf16Length(s[1..]);
    assert Utf16Length(s[1..]) == 2 + Utf16Length(s[2..]);
  }

  /** The body of `POST /api/blog/create`: the title is sent untrimmed. */
  datatype CreatePayload = CreatePayload(title: string, content: string, published: bool)

  class CreateBlogForm {
    var title: string
    var content: string
    var publishNow: bool
    var loading: bool

    constructor ()
      ensures title == "" && content == "" && !publishNow && !loading
    {
      title := "";
      content := "";
      publishNow := false;
      loading := false;
    }

    method SetTitle(t: string)
      modifies this`title
      ensures title == t
    {
      title := t;
    }

    method SetContent(c: string)
      modifies this`content
      ensures content == c
    {
      content := c;
    }

    method SetPublishNow(b: bool)
      modifies this`publishNow
      ensures publishNow == b
    {
      publishNow := b;
    }

    /** `handleSubmit` up to its `await`: an invalid title sends nothing and changes
        nothing; a valid one raises `loading` and sends the fields as they stand. */
    method BeginSubmit() returns (payload: Option<CreatePayload>)
      modifies this`loading
      ensures payload.Some? <==> IsValid(title)
      ensures payload.Some? ==> payload.value == CreatePayload(title, content, publishNow) && loading
      ensures payload.None? ==> loading == old(loading)
    {
      if !IsValid(title) {
        payload := None;
        return;
      }
      loading := true;
      payload := Some(CreatePayload(title, content, publishNow));
    }

    /** `handleSubmit` after its `await`: success resets every field, failure keeps them
        and reports the server's message (`??` "Failed to create blog"); `loading` ends
        false, and after a success the emptied title disables the button. */
    method SettleSubmit(outcome: Outcome<(), Option<string>>) returns (toast: Toast)
      modifies this
      ensures !loading
      ensures outcome.Ok? ==>
        title == "" && content == "" && !publishNow && SubmitDisabled(title, loading)
        && toast == Success("Blog created successfully!")
      ensures outcome.Err? ==>
        title == old(title) && content == old(content) && publishNow == old(publishNow)
        && toast == Failure(Coalesce(outcome.error, "Failed to create blog"))
    {
      BlankTitleInvalid("");
      match outcome {
        case Ok(_) =>
          toast := Success("Blog created successfully!");
          title := "";
          content := "";
          publishNow := false;
        case Err(message) =>
          toast := Failure(Coalesce(message, "Failed to create blog"));
      }
      loading := false;
    }
  }
}
