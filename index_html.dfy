/** The index page script: list the keys of bucket `test`, write one link
    per key containing `.jpg` to `/tmp/index.html`, and upload that file
    back to the bucket as `index.html`. The key listing is an input. */
module IndexHtml {
  import opened Text

  const Bucket: string := "test"
  const LocalPath: string := "/tmp/index.html"
  const IndexKey: string := "index.html"

  /** The one upload the script makes: local file, bucket, key. */
  datatype Upload = Upload(source: string, bucket: string, key: string)

  /** The link written for one key. */
  function Anchor(key: string): string
  {
    "<a href=\"" + key + "\">" + key + "</a><br/>"
  }

  /** A link is the key as target and as text inside twenty characters of
      markup. */
  lemma AnchorLayout(key: string)
    ensures var a := Anchor(key);
      && |a| == 2 * |key| + 20
      && a[..9] == "<a href=\"" && a[9..9 + |key|] == key
      && a[9 + |key|..11 + |key|] == "\">" && a[11 + |key|..11 + 2 * |key|] == key
      && a[|a| - 9..] == "</a><br/>"
  {
  }

  /** The filter: Python's `".jpg" in key`, case-sensitive and anywhere. */
  predicate IsPhoto(key: string)
  {
    Contains(key, ".jpg")
  }

  /** The page text for the keys in listing order. */
  function Index(keys: seq<string>): string
  {
    if keys == [] then ""
    else
      var last := keys[|keys| - 1];
      Index(keys[..|keys| - 1]) + if IsPhoto(last) then Anchor(last) else ""
  }

  /** The listing loop: skip keys without `.jpg`, append a link otherwise. */
  method BuildIndex(keys: seq<string>) returns (html: string)
    ensures html == Index(keys)
  {
    html := "";
    var i := 0;
    while i < |keys|
      invariant 0 <= i <= |keys|
      invariant html == Index(keys[..i])
    {
      var key := keys[i];
      assert keys[..i + 1][..i] == keys[..i];
      i := i + 1;
      if !IsPhoto(key) {
        continue;
      }
      html := html + Anchor(key);
    }
    assert keys[..i] == keys;
  }

  /** The page of a concatenated listing is the concatenation of the pages. */
  lemma {:induction false} IndexAppend(a: seq<string>, b: seq<string>)
    ensures Index(a + b) == Index(a) + Index(b)
    decreases |b|
  {
    if b == [] {
      assert a + b == a;
    } else {
      var b' := b[..|b| - 1];
      IndexAppend(a, b');
      var last := b[|b| - 1];
      var tail := if IsPhoto(last) then Anchor(last) else "";
      var x := a + b;
      assert x[..|x| - 1] == a + b' && x[|x| - 1] == last;
      assert Index(x) == Index(a + b') + tail;
      assert Index(b) == Index(b') + tail;
      ConcatAssoc(Index(a), Index(b'), tail);
    }
  }

  /** Regrouping a concatenation, stated over fresh variables. */
  lemma ConcatAssoc(x: string, y: string, z: string)
    ensures (x + y) + z == x + (y + z)
  {
  }

  /** Every key containing `.jpg` gets its link, placed after the links of
      the keys before it. */
  lemma IndexLinksEach(keys: seq<string>, i: nat)
    requires i < |keys| && IsPhoto(keys[i])
    ensures OccursAt(Index(keys), Anchor(keys[i]), |Index(keys[..i])|)
  {
    assert keys == keys[..i] + [keys[i]] + keys[i + 1..];
    IndexAppend(keys[..i] + [keys[i]], keys[i + 1..]);
    IndexAppend(keys[..i], [keys[i]]);
    assert Index([keys[i]]) == Anchor(keys[i]) by {
      assert [keys[i]][..0] == [];
    }
  }

  /** The page is empty exactly when no key contains `.jpg`. */
  lemma {:induction false} IndexEmpty(keys: seq<string>)
    ensures Index(keys) == "" <==> forall k :: k in keys ==> !IsPhoto(k)
  {
    if keys != [] {
      var init := keys[..|keys| - 1];
      IndexEmpty(init);
      assert forall k :: k in keys <==> k in init || k == keys[|keys| - 1];
    }
  }

  /** Each link adds twenty characters of markup around two copies of its
      key; keys without `.jpg` add nothing. */
  function PageLength(keys: seq<string>): nat
  {
    if keys == [] then 0
    else
      var last := keys[|keys| - 1];
      PageLength(keys[..|keys| - 1]) + if IsPhoto(last) then 2 * |last| + 20 else 0
  }

  lemma {:induction false} IndexLength(keys: seq<string>)
    ensures |Index(keys)| == PageLength(keys)
  {
    if keys != [] {
      IndexLength(keys[..|keys| - 1]);
      AnchorLayout(keys[|keys| - 1]);
    }
  }

  /** The filter is case-sensitive and matches `.jpg` anywhere in the key. */
  lemma FilterExamples()
    ensures Index(["a.jpg.txt"]) == Anchor("a.jpg.txt")
    ensures Index(["a.JPG", "jpg", "b.jpeg"]) == ""
  {
    assert Contains("a.jpg.txt", ".jpg") by {
      assert "a.jpg.txt"[1..][..4] == ".jpg";
    }
    assert ["a.jpg.txt"][..0] == [];
    IndexEmpty(["a.JPG", "jpg", "b.jpeg"]);
    assert !Contains("a.JPG", ".jpg") by {
      assert "a.JPG"[..4][2] != ".jpg"[2];
      assert "a.JPG"[1..][..4][2] != ".jpg"[2];
      assert "a.JPG"[1..][1..] == "JPG";
    }
    assert !Contains("b.jpeg", ".jpg") by {
      assert "b.jpeg"[..4][0] != ".jpg"[0];
      assert "b.jpeg"[1..][..4][3] != ".jpg"[3];
      assert "b.jpeg"[1..][1..][..4][0] != ".jpg"[0];
      assert "b.jpeg"[1..][1..][1..] == "peg";
    }
  }

  /** The script: build the page, write it to the local file and upload
      that file as the bucket's index. */
  method Run(keys: seq<string>) returns (page: string, upload: Upload)
    ensures page == Index(keys)
    ensures upload == Upload(LocalPath, Bucket, IndexKey)
  {
    page := BuildIndex(keys);
    upload := Upload(LocalPath, Bucket, IndexKey);
  }
}
