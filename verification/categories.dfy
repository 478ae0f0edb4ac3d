/**
 * Category matching of the pricing engine (the helper methods of InsuranceService):
 * a product-type name is trimmed, stripped of every space, lower-cased and compared,
 * ignoring case, with a fixed vocabulary.
 */
module Categories {
  import opened Wrappers

  const LaptopProductType: string := "laptops"
  const SmartphoneProductType: string := "Smartphones"
  const DigitalCameraProductType: string := "digitalcameras"

  /** The characters .NET's Char.IsWhiteSpace accepts, which String.Trim removes. */
  predicate IsWhiteSpace(c: char)
  {
    c == ' ' || ('\t' <= c <= '\r') || c == '\U{85}' || c == '\U{A0}' || c == '\U{1680}'
    || ('\U{2000}' <= c <= '\U{200A}') || c == '\U{2028}' || c == '\U{2029}'
    || c == '\U{202F}' || c == '\U{205F}' || c == '\U{3000}'
  }

  function ToLowerChar(c: char): char
  {
    if 'A' <= c <= 'Z' then (c as int + 32) as char else c
  }

  function ToUpperChar(c: char): char
  {
    if 'a' <= c <= 'z' then (c as int - 32) as char else c
  }

  function ToLower(s: string): (r: string)
    ensures |r| == |s|
  {
    seq(|s|, i requires 0 <= i < |s| => ToLowerChar(s[i]))
  }

  function TrimStart(s: string): string
  {
    if |s| > 0 && IsWhiteSpace(s[0]) then TrimStart(s[1..]) else s
  }

  function TrimEnd(s: string): string
  {
    if |s| > 0 && IsWhiteSpace(s[|s| - 1]) then TrimEnd(s[..|s| - 1]) else s
  }

  /** String.Trim(). */
  function Trim(s: string): string
  {
    TrimEnd(TrimStart(s))
  }

  /** String.Replace(" ", ""): removes U+0020 only, not the other white space. */
  function RemoveSpaces(s: string): string
  {
    if s == [] then [] else (if s[0] == ' ' then [] else [s[0]]) + RemoveSpaces(s[1..])
  }

  /** productTypeName.Trim().Replace(" ", "").ToLower() */
  function Normalize(s: string): string
  {
    ToLower(RemoveSpaces(Trim(s)))
  }

  /** String.Equals(a, b, StringComparison.OrdinalIgnoreCase), on the ASCII letters. */
  predicate EqualsIgnoreCase(a: string, b: string)
  {
    |a| == |b| && forall i :: 0 <= i < |a| ==> ToUpperChar(a[i]) == ToUpperChar(b[i])
  }

  /** IsProductType: a null or empty name matches nothing; otherwise its normal form is
      compared, ignoring case, with each of the valid type names. */
  predicate IsProductType(productTypeName: Option<string>, validProductTypes: seq<string>)
  {
    if productTypeName.None? || productTypeName.value == "" then false
    else exists i :: 0 <= i < |validProductTypes|
                     && EqualsIgnoreCase(Normalize(productTypeName.value), validProductTypes[i])
  }

  predicate IsLaptopOrSmartPhone(productTypeName: Option<string>)
  {
    IsProductType(productTypeName, [LaptopProductType, SmartphoneProductType])
  }

  predicate IsLaptop(productTypeName: Option<string>)
  {
    IsProductType(productTypeName, [LaptopProductType])
  }

  predicate IsDigitalCamera(productTypeName: Option<string>)
  {
    IsProductType(productTypeName, [DigitalCameraProductType])
  }

  /** The name's normal form is exactly `word` (a reference definition of a category match). */
  predicate NamedAs(productTypeName: Option<string>, word: string)
  {
    productTypeName.Some? && Normalize(productTypeName.value) == word
  }

  // ---------------------------------------------------------------------------
  // Case-insensitive comparison against an already lower-cased string

  lemma LoweredCharMatch(c: char, d: char)
    ensures ToUpperChar(ToLowerChar(c)) == ToUpperChar(d) <==> ToLowerChar(c) == ToLowerChar(d)
  {
  }

  lemma {:induction false} IgnoreCaseOnLowered(x: string, t: string)
    ensures EqualsIgnoreCase(ToLower(x), t) <==> ToLower(x) == ToLower(t)
  {
    if |x| == |t| {
      forall i | 0 <= i < |x|
        ensures ToUpperChar(ToLower(x)[i]) == ToUpperChar(t[i]) <==> ToLower(x)[i] == ToLower(t)[i]
      {
        LoweredCharMatch(x[i], t[i]);
      }
      if EqualsIgnoreCase(ToLower(x), t) {
        assert forall i :: 0 <= i < |x| ==> ToLower(x)[i] == ToLower(t)[i];
      }
    }
  }

  /** A name matches one category word exactly when its normal form is that word in lower case. */
  lemma {:induction false} SingleMatch(productTypeName: Option<string>, validType: string)
    requires validType != ""
    ensures IsProductType(productTypeName, [validType]) <==> NamedAs(productTypeName, ToLower(validType))
  {
    if productTypeName.Some? {
      var s := productTypeName.value;
      IgnoreCaseOnLowered(RemoveSpaces(Trim(s)), validType);
      assert [validType][0] == validType;
      if s == "" {
        assert Trim(s) == "" && RemoveSpaces("") == [];
        assert |Normalize(s)| == 0 < |ToLower(validType)|;
      }
    }
  }

  /** The three categories, stated as equalities of the normal form with the lower-case words. */
  lemma CategoryWords(productTypeName: Option<string>)
    ensures IsLaptop(productTypeName) <==> NamedAs(productTypeName, "laptops")
    ensures IsDigitalCamera(productTypeName) <==> NamedAs(productTypeName, "digitalcameras")
    ensures IsLaptopOrSmartPhone(productTypeName)
            <==> NamedAs(productTypeName, "laptops") || NamedAs(productTypeName, "smartphones")
  {
    assert ToLower(LaptopProductType) == "laptops";
    assert ToLower(SmartphoneProductType) == "smartphones";
    assert ToLower(DigitalCameraProductType) == "digitalcameras";
    SingleMatch(productTypeName, LaptopProductType);
    SingleMatch(productTypeName, SmartphoneProductType);
    SingleMatch(productTypeName, DigitalCameraProductType);
    var two := [LaptopProductType, SmartphoneProductType];
    if IsLaptopOrSmartPhone(productTypeName) {
      var i :| 0 <= i < 2 && EqualsIgnoreCase(Normalize(productTypeName.value), two[i]);
      assert IsProductType(productTypeName, [two[i]]);
    }
    if IsProductType(productTypeName, [SmartphoneProductType]) {
      assert EqualsIgnoreCase(Normalize(productTypeName.value), two[1]);
    }
    if IsProductType(productTypeName, [LaptopProductType]) {
      assert EqualsIgnoreCase(Normalize(productTypeName.value), two[0]);
    }
  }

  /** No name belongs to two categories. */
  lemma CategoriesDisjoint(productTypeName: Option<string>)
    ensures !(IsLaptopOrSmartPhone(productTypeName) && IsDigitalCamera(productTypeName))
    ensures IsLaptop(productTypeName) ==> IsLaptopOrSmartPhone(productTypeName)
  {
    CategoryWords(productTypeName);
  }

  // ---------------------------------------------------------------------------
  // Spaces do not matter

  lemma {:induction false} RemoveSpacesAppend(a: string, b: string)
    ensures RemoveSpaces(a + b) == RemoveSpaces(a) + RemoveSpaces(b)
  {
    if a == [] {
      assert a + b == b;
    } else {
      assert (a + b)[0] == a[0] && (a + b)[1..] == a[1..] + b;
      RemoveSpacesAppend(a[1..], b);
    }
  }

  lemma RemoveSpacesOne(c: char)
    ensures RemoveSpaces([c]) == if c == ' ' then [] else [c]
  {
    assert [c][1..] == [];
  }

  lemma {:induction false} RemoveSpacesTrimStart(s: string)
    ensures RemoveSpaces(TrimStart(s)) == TrimStart(RemoveSpaces(s))
  {
    if |s| > 0 {
      var rest := RemoveSpaces(s[1..]);
      if s[0] == ' ' {
        RemoveSpacesTrimStart(s[1..]);
        assert RemoveSpaces(s) == [] + rest == rest;
      } else if IsWhiteSpace(s[0]) {
        RemoveSpacesTrimStart(s[1..]);
        assert RemoveSpaces(s) == [s[0]] + rest;
        assert RemoveSpaces(s)[1..] == rest;
      } else {
        assert RemoveSpaces(s) == [s[0]] + rest;
      }
    }
  }

  lemma {:induction false} RemoveSpacesTrimEnd(s: string)
    ensures RemoveSpaces(TrimEnd(s)) == TrimEnd(RemoveSpaces(s))
  {
    if |s| > 0 {
      var init, last := s[..|s| - 1], s[|s| - 1];
      assert s == init + [last];
      RemoveSpacesAppend(init, [last]);
      RemoveSpacesOne(last);
      var r := RemoveSpaces(s);
      if last == ' ' {
        RemoveSpacesTrimEnd(init);
        assert r == RemoveSpaces(init);
      } else if IsWhiteSpace(last) {
        RemoveSpacesTrimEnd(init);
        assert r == RemoveSpaces(init) + [last];
        assert r[..|r| - 1] == RemoveSpaces(init);
      } else {
        assert r == RemoveSpaces(init) + [last];
      }
    }
  }

  /** Trimming and removing the spaces commute. */
  lemma RemoveSpacesTrim(s: string)
    ensures RemoveSpaces(Trim(s)) == Trim(RemoveSpaces(s))
  {
    RemoveSpacesTrimStart(s);
    RemoveSpacesTrimEnd(TrimStart(s));
  }

  /** Inserting a space anywhere in a name does not change its normal form. */
  lemma SpaceInsensitive(s: string, i: nat)
    requires i <= |s|
    ensures Normalize(s[..i] + " " + s[i..]) == Normalize(s)
  {
    var t := s[..i] + " " + s[i..];
    RemoveSpacesAppend(s[..i] + " ", s[i..]);
    RemoveSpacesAppend(s[..i], " ");
    RemoveSpacesAppend(s[..i], s[i..]);
    RemoveSpacesOne(' ');
    assert s == s[..i] + s[i..];
    assert RemoveSpaces(t) == RemoveSpaces(s);
    RemoveSpacesTrim(t);
    RemoveSpacesTrim(s);
  }

  // ---------------------------------------------------------------------------
  // Letter case does not matter

  lemma ToLowerAppend(a: string, b: string)
    ensures ToLower(a + b) == ToLower(a) + ToLower(b)
  {
  }

  lemma {:induction false} ToLowerTrimStart(s: string)
    ensures ToLower(TrimStart(s)) == TrimStart(ToLower(s))
  {
    if |s| > 0 {
      assert ToLower(s)[1..] == ToLower(s[1..]);
      ToLowerTrimStart(s[1..]);
    }
  }

  lemma {:induction false} ToLowerTrimEnd(s: string)
    ensures ToLower(TrimEnd(s)) == TrimEnd(ToLower(s))
  {
    if |s| > 0 {
      assert ToLower(s)[..|s| - 1] == ToLower(s[..|s| - 1]);
      ToLowerTrimEnd(s[..|s| - 1]);
    }
  }

  lemma {:induction false} ToLowerRemoveSpaces(s: string)
    ensures ToLower(RemoveSpaces(s)) == RemoveSpaces(ToLower(s))
  {
    if s != [] {
      assert ToLower(s)[1..] == ToLower(s[1..]);
      ToLowerRemoveSpaces(s[1..]);
      ToLowerAppend(if s[0] == ' ' then [] else [s[0]], RemoveSpaces(s[1..]));
    }
  }

  /** Two names that differ only in the case of their letters have the same normal form. */
  lemma CaseInsensitive(s: string, s': string)
    requires ToLower(s) == ToLower(s')
    ensures Normalize(s) == Normalize(s')
  {
    forall x: string | x == s || x == s'
      ensures Normalize(x) == Normalize(ToLower(x))
    {
      ToLowerTrimStart(x);
      ToLowerTrimEnd(TrimStart(x));
      ToLowerRemoveSpaces(Trim(x));
      assert ToLower(ToLower(RemoveSpaces(Trim(x)))) == ToLower(RemoveSpaces(Trim(x)));
    }
  }

  /** The three category tests see a name through its normal form only. */
  lemma SameNormalFormSameCategory(a: string, b: string)
    requires Normalize(a) == Normalize(b)
    ensures IsLaptop(Some(a)) == IsLaptop(Some(b))
    ensures IsLaptopOrSmartPhone(Some(a)) == IsLaptopOrSmartPhone(Some(b))
    ensures IsDigitalCamera(Some(a)) == IsDigitalCamera(Some(b))
  {
    CategoryWords(Some(a));
    CategoryWords(Some(b));
  }

  lemma {:induction false} RemoveSpacesNone(s: string)
    requires forall i :: 0 <= i < |s| ==> s[i] != ' '
    ensures RemoveSpaces(s) == s
  {
    if s != [] {
      assert [s[0]] + s[1..] == s;
      RemoveSpacesNone(s[1..]);
    }
  }

  lemma TrimUnpadded(s: string)
    requires s != [] && !IsWhiteSpace(s[0]) && !IsWhiteSpace(s[|s| - 1])
    ensures Trim(s) == s
  {
    assert TrimStart(s) == s;
  }

  lemma RemoveOneSpace(a: string, b: string)
    requires forall i :: 0 <= i < |a| ==> a[i] != ' '
    requires forall i :: 0 <= i < |b| ==> b[i] != ' '
    ensures RemoveSpaces(a + " " + b) == a + b
  {
    RemoveSpacesNone(a);
    RemoveSpacesNone(b);
    RemoveSpacesOne(' ');
    RemoveSpacesAppend(a, " ");
    assert RemoveSpaces(a + " ") == a;
    RemoveSpacesAppend(a + " ", b);
  }

  /** Normal form of two words joined by one space, neither word holding white space. */
  lemma TwoWords(a: string, b: string)
    requires a != [] && b != []
    requires forall i :: 0 <= i < |a| ==> !IsWhiteSpace(a[i])
    requires forall i :: 0 <= i < |b| ==> !IsWhiteSpace(b[i])
    ensures Normalize(a + " " + b) == ToLower(a + b)
  {
    var s := a + " " + b;
    assert s[0] == a[0] && s[|s| - 1] == b[|b| - 1];
    TrimUnpadded(s);
    RemoveOneSpace(a, b);
  }

  /** The catalog's spelling "Digital cameras" is a digital camera. */
  lemma DigitalCamerasMatches()
    ensures IsDigitalCamera(Some("Digital cameras"))
  {
    TwoWords("Digital", "cameras");
    assert "Digital" + " " + "cameras" == "Digital cameras";
    assert ToLower("Digital" + "cameras") == "digitalcameras";
    CategoryWords(Some("Digital cameras"));
  }

  /** The singular "Digital camera" is not. */
  lemma DigitalCameraSingularDoesNotMatch()
    ensures !IsDigitalCamera(Some("Digital camera"))
  {
    TwoWords("Digital", "camera");
    assert "Digital" + " " + "camera" == "Digital camera";
    CategoryWords(Some("Digital camera"));
  }

  /** "Smart phones" is a smartphone. */
  lemma SmartPhonesMatches()
    ensures IsLaptopOrSmartPhone(Some("Smart phones"))
  {
    TwoWords("Smart", "phones");
    assert "Smart" + " " + "phones" == "Smart phones";
    assert ToLower("Smart" + "phones") == "smartphones";
    CategoryWords(Some("Smart phones"));
  }

  /** One space on each side of an unpadded word is trimmed away. */
  lemma TrimPadded(w: string)
    requires w != [] && !IsWhiteSpace(w[0]) && !IsWhiteSpace(w[|w| - 1])
    ensures Trim(" " + w + " ") == w
  {
    var s := " " + w + " ";
    assert s[1..] == w + " ";
    assert TrimStart(s) == TrimStart(w + " ");
    assert TrimStart(w + " ") == w + " ";
    assert (w + " ")[..|w|] == w;
    assert TrimEnd(w + " ") == TrimEnd(w);
    TrimUnpadded(w);
  }

  /** Normal form of a word padded with one space on each side. */
  lemma PaddedWord(w: string)
    requires w != []
    requires forall i :: 0 <= i < |w| ==> !IsWhiteSpace(w[i])
    ensures Normalize(" " + w + " ") == ToLower(w)
  {
    TrimPadded(w);
    RemoveSpacesNone(w);
  }

  /** Padding and upper case do not hide a laptop. */
  lemma PaddedUpperCaseLaptops()
    ensures IsLaptop(Some(" LAPTOPS "))
  {
    PaddedWord("LAPTOPS");
    assert " " + "LAPTOPS" + " " == " LAPTOPS ";
    assert ToLower("LAPTOPS") == "laptops";
    CategoryWords(Some(" LAPTOPS "));
  }

  /** The singular "Laptop" is not a laptop. */
  lemma LaptopSingularDoesNotMatch()
    ensures !IsLaptop(Some("Laptop"))
  {
    TrimUnpadded("Laptop");
    RemoveSpacesNone("Laptop");
    CategoryWords(Some("Laptop"));
  }
}
