/** Fresh names for generated images (crates/agent-core/src/images.rs). A path is the name of its last
    component; the directory is the same for all of a call. */
module ImagePaths {
  import opened Common

  // ---------------------------------------------------------------- names

  function LowerChar(c: char): char {
    if 'A' <= c <= 'Z' then (c as int + 32) as char else c
  }

  /** `to_ascii_lowercase`. */
  function Lower(s: string): (t: string)
    ensures |t| == |s|
  {
    seq(|s|, i requires 0 <= i < |s| => LowerChar(s[i]))
  }

  /** The last dot of a name, if it is not its first character. */
  function DotAt(name: string): (at: Option<nat>)
    ensures at.Some? ==> 0 < at.value < |name| && name[at.value] == '.'
    ensures at.Some? ==> forall i :: at.value < i < |name| ==> name[i] != '.'
    decreases |name|
  {
    if |name| <= 1 then None
    else if name[|name| - 1] == '.' then Some(|name| - 1)
    else DotAt(name[..|name| - 1])
  }

  /** `Path::extension`. */
  function Extension(name: string): Option<string> {
    match DotAt(name)
    case None => None
    case Some(at) => Some(name[at + 1..])
  }

  /** `Path::file_stem`. */
  function Stem(name: string): string {
    match DotAt(name)
    case None => name
    case Some(at) => name[..at]
  }

  const IMAGE_EXTENSIONS := {"png", "jpg", "jpeg", "gif", "webp"}

  predicate IsImageName(name: string) {
    Extension(name).Some? && Lower(Extension(name).value) in IMAGE_EXTENSIONS
  }

  /** The name says this format. */
  predicate Says(name: string, extension: string) {
    Extension(name).Some? &&
    (Lower(Extension(name).value) == extension || (Lower(Extension(name).value) == "jpeg" && extension == "jpg"))
  }

  /** `with_extension`. */
  function WithExtension(name: string, extension: string): string {
    if Says(name, extension) then name
    else if IsImageName(name) then Stem(name) + "." + extension
    else name + "." + extension
  }

  /** The `number`-th name beside a taken one. */
  function Numbered(name: string, number: nat): string {
    Stem(name) + "-" + Decimal(number) + (if Extension(name).None? then "" else "." + Extension(name).value)
  }

  // ---------------------------------------------------------------- formats

  const PNG: seq<Byte> := [0x89, 0x50, 0x4E, 0x47, 0x0D, 0x0A, 0x1A, 0x0A]
  const JPEG: seq<Byte> := [0xFF, 0xD8, 0xFF]
  const RIFF: seq<Byte> := [0x52, 0x49, 0x46, 0x46]
  const WEBP: seq<Byte> := [0x57, 0x45, 0x42, 0x50]
  const GIF8: seq<Byte> := [0x47, 0x49, 0x46, 0x38]

  function ImageExtension(bytes: seq<Byte>): Option<string> {
    if PNG <= bytes then Some("png")
    else if JPEG <= bytes then Some("jpg")
    else if |bytes| >= 12 && bytes[..4] == RIFF && bytes[8..12] == WEBP then Some("webp")
    else if GIF8 <= bytes then Some("gif")
    else None
  }

  // ---------------------------------------------------------------- free names

  /** The name itself if it is free, and otherwise the free one with the smallest number from 2 on. */
  ghost predicate IsFirstFree(name: string, occupied: set<string>, free: string) {
    free !in occupied &&
    (free == name ||
     (name in occupied && exists n :: n >= 2 && IsFirstNumber(name, occupied, n) && free == Numbered(name, n)))
  }

  ghost predicate IsFirstNumber(name: string, occupied: set<string>, n: nat) {
    Numbered(name, n) !in occupied && forall k :: 2 <= k < n ==> Numbered(name, k) in occupied
  }

  lemma NumberedInjective(name: string, m: nat, n: nat)
    requires Numbered(name, m) == Numbered(name, n)
    ensures m == n
  {
    var stem, tail := Stem(name) + "-", if Extension(name).None? then "" else "." + Extension(name).value;
    assert Numbered(name, m) == stem + Decimal(m) + tail && Numbered(name, n) == stem + Decimal(n) + tail;
    assert (stem + Decimal(m) + tail)[|stem|..|stem| + |Decimal(m)|] == Decimal(m);
    assert (stem + Decimal(n) + tail)[|stem|..|stem| + |Decimal(n)|] == Decimal(n);
    assert |Decimal(m)| == |Decimal(n)|;
    DecimalInjective(m, n);
  }

  /** As many taken numbers, as many taken names. */
  lemma {:induction false} TakenNumbers(name: string, occupied: set<string>, n: nat)
    requires n >= 2 && forall k :: 2 <= k < n ==> Numbered(name, k) in occupied
    ensures n - 2 <= |occupied|
    decreases n
  {
    if n > 2 {
      var rest := occupied - {Numbered(name, n - 1)};
      forall k | 2 <= k < n - 1 ensures Numbered(name, k) in rest {
        if Numbered(name, k) == Numbered(name, n - 1) {
          NumberedInjective(name, k, n - 1);
        }
      }
      TakenNumbers(name, rest, n - 1);
    }
  }

  /** The search ends, within as many steps as there are occupied names. */
  method FreePath(name: string, existing: set<string>, taken: set<string>) returns (free: string, tries: nat)
    ensures IsFirstFree(name, existing + taken, free)
    ensures tries <= |existing| + |taken| + 1
  {
    if name !in existing && name !in taken {
      return name, 0;
    }
    var occupied := existing + taken;
    var number := 2;
    TakenNumbers(name, occupied, number);
    while Numbered(name, number) in existing || Numbered(name, number) in taken
      invariant number >= 2 && forall k :: 2 <= k < number ==> Numbered(name, k) in occupied
      invariant number - 2 <= |occupied|
      decreases |occupied| + 2 - number
    {
      TakenNumbers(name, occupied, number + 1);
      number := number + 1;
    }
    assert IsFirstNumber(name, occupied, number);
    UnionSize(existing, taken);
    return Numbered(name, number), number - 1;
  }

  lemma UnionSize(a: set<string>, b: set<string>)
    ensures |a + b| <= |a| + |b|
  {
    assert a + b == a + (b - a);
    assert |b - a| <= |b| by {
      assert b == (b - a) + (b * a);
    }
  }

  function Elements(s: seq<string>): set<string> {
    set i | 0 <= i < |s| :: s[i]
  }

  /** Path `i` is the first free one for image `i`, after those before it. */
  ghost predicate IsAllocated(base: string, image: seq<Byte>, existing: set<string>, before: seq<string>, path: string) {
    ImageExtension(image).Some? &&
    IsFirstFree(WithExtension(base, ImageExtension(image).value), existing + Elements(before), path)
  }

  ghost predicate AreAllocated(base: string, images: seq<seq<Byte>>, existing: set<string>, paths: seq<string>) {
    |paths| <= |images| &&
    forall i :: 0 <= i < |paths| ==> IsAllocated(base, images[i], existing, paths[..i], paths[i])
  }

  /** Allocated paths are new and distinct. */
  lemma AllocatedAreFresh(base: string, images: seq<seq<Byte>>, existing: set<string>, paths: seq<string>)
    requires AreAllocated(base, images, existing, paths)
    ensures Distinct(paths) && forall i :: 0 <= i < |paths| ==> paths[i] !in existing
  {
    forall i, j | 0 <= i < j < |paths| ensures paths[i] != paths[j] {
      assert IsAllocated(base, images[j], existing, paths[..j], paths[j]);
      assert paths[..j][i] == paths[i] && paths[i] in Elements(paths[..j]);
    }
    forall i | 0 <= i < |paths| ensures paths[i] !in existing {
      assert IsAllocated(base, images[i], existing, paths[..i], paths[i]);
    }
  }

  lemma AllocatedOneMore(base: string, images: seq<seq<Byte>>, existing: set<string>, paths: seq<string>, path: string)
    requires AreAllocated(base, images, existing, paths) && |paths| < |images|
    requires IsAllocated(base, images[|paths|], existing, paths, path)
    ensures AreAllocated(base, images, existing, paths + [path])
  {
    var more := paths + [path];
    forall i | 0 <= i < |more| ensures IsAllocated(base, images[i], existing, more[..i], more[i]) {
      if i < |paths| {
        assert more[..i] == paths[..i];
      } else {
        assert more[..i] == paths;
      }
    }
  }

  /** One path per image: none exists, no two are equal, and each is the first free one for its format;
      an error exactly when an image has no known format. */
  method AllocatePaths(base: string, images: seq<seq<Byte>>, existing: set<string>) returns (r: Result<seq<string>>)
    ensures r.Ok? <==> forall i :: 0 <= i < |images| ==> ImageExtension(images[i]).Some?
    ensures r.Ok? ==>
              && |r.value| == |images| && AreAllocated(base, images, existing, r.value)
              && Distinct(r.value) && forall i :: 0 <= i < |images| ==> r.value[i] !in existing
  {
    var paths: seq<string>, taken: set<string> := [], {};
    var i := 0;
    while i < |images|
      invariant i == |paths| <= |images| && taken == Elements(paths)
      invariant AreAllocated(base, images, existing, paths)
      invariant forall k :: 0 <= k < i ==> ImageExtension(images[k]).Some?
    {
      var extension := ImageExtension(images[i]);
      if extension.None? {
        return Err("the image API returned data that is not a png, jpg, webp or gif image");
      }
      var path, _ := FreePath(WithExtension(base, extension.value), existing, taken);
      AllocatedOneMore(base, images, existing, paths, path);
      ElementsMore(paths, path);
      taken, paths := taken + {path}, paths + [path];
      i := i + 1;
    }
    AllocatedAreFresh(base, images, existing, paths);
    r := Ok(paths);
  }

  lemma ElementsMore(s: seq<string>, x: string)
    ensures Elements(s + [x]) == Elements(s) + {x}
  {
    assert (s + [x])[|s|] == x;
    assert forall i :: 0 <= i < |s| ==> (s + [x])[i] == s[i];
  }

  /** There is only one first free name. */
  lemma FirstFreeIsOne(name: string, occupied: set<string>, a: string, b: string)
    requires IsFirstFree(name, occupied, a) && IsFirstFree(name, occupied, b)
    ensures a == b
  {
    if a != name && b != name {
      var m :| m >= 2 && IsFirstNumber(name, occupied, m) && a == Numbered(name, m);
      var n :| n >= 2 && IsFirstNumber(name, occupied, n) && b == Numbered(name, n);
      assert !(m < n) && !(n < m);
    }
  }

  /** The images and the names that exist determine the paths. */
  lemma {:induction false} AllocatedAreOne(base: string, images: seq<seq<Byte>>, existing: set<string>, a: seq<string>, b: seq<string>)
    requires AreAllocated(base, images, existing, a) && AreAllocated(base, images, existing, b) && |a| == |b|
    ensures a == b
    decreases |a|
  {
    if a != [] {
      var n := |a| - 1;
      AllocatedPrefix(base, images, existing, a);
      AllocatedPrefix(base, images, existing, b);
      AllocatedAreOne(base, images, existing, a[..n], b[..n]);
      assert IsAllocated(base, images[n], existing, a[..n], a[n]) && IsAllocated(base, images[n], existing, b[..n], b[n]);
      FirstFreeIsOne(WithExtension(base, ImageExtension(images[n]).value), existing + Elements(a[..n]), a[n], b[n]);
      assert a == a[..n] + [a[n]] && b == b[..n] + [b[n]];
    }
  }

  lemma AllocatedPrefix(base: string, images: seq<seq<Byte>>, existing: set<string>, paths: seq<string>)
    requires AreAllocated(base, images, existing, paths) && paths != []
    ensures AreAllocated(base, images, existing, paths[..|paths| - 1])
  {
    var init := paths[..|paths| - 1];
    forall i | 0 <= i < |init| ensures IsAllocated(base, images[i], existing, init[..i], init[i]) {
      assert init[..i] == paths[..i];
    }
  }

  // ---------------------------------------------------------------- a name says its format

  lemma {:induction false} DotBehind(stem: string, extension: string)
    requires stem != "" && forall i :: 0 <= i < |extension| ==> extension[i] != '.'
    ensures DotAt(stem + "." + extension) == Some(|stem|)
    decreases |extension|
  {
    var name := stem + "." + extension;
    if extension != "" {
      var shorter := extension[..|extension| - 1];
      assert name[..|name| - 1] == stem + "." + shorter;
      DotBehind(stem, shorter);
    }
  }

  predicate IsFormat(extension: string) {
    extension in {"png", "jpg", "webp", "gif"}
  }

  lemma SaysBehindDot(stem: string, extension: string)
    requires stem != "" && IsFormat(extension)
    ensures Says(stem + "." + extension, extension)
  {
    DotBehind(stem, extension);
    assert (stem + "." + extension)[|stem| + 1..] == extension;
    assert Lower(extension) == extension;
  }

  /** Whatever name is asked for, the file is named for the format it has, and naming it again changes
      nothing. */
  lemma NamedForItsFormat(name: string, extension: string)
    requires name != "" && IsFormat(extension)
    ensures Says(WithExtension(name, extension), extension)
    ensures WithExtension(WithExtension(name, extension), extension) == WithExtension(name, extension)
  {
    if !Says(name, extension) {
      SaysBehindDot(if IsImageName(name) then Stem(name) else name, extension);
    }
  }

  /** A number keeps the extension, so numbered names say their format too. */
  lemma NumberKeepsFormat(name: string, number: nat, extension: string)
    requires name != "" && Says(name, extension)
    ensures Says(Numbered(name, number), extension)
  {
    var at := DotAt(name).value;
    var stem, current := Stem(name) + "-" + Decimal(number), name[at + 1..];
    DotBehind(stem, current);
    assert Numbered(name, number) == stem + "." + current;
    assert (stem + "." + current)[|stem| + 1..] == current;
  }

  /** Every allocated path says the format of its image. */
  lemma AllocatedSayTheirFormat(base: string, images: seq<seq<Byte>>, existing: set<string>, paths: seq<string>, i: nat)
    requires AreAllocated(base, images, existing, paths) && i < |paths| && base != ""
    ensures ImageExtension(images[i]).Some? && Says(paths[i], ImageExtension(images[i]).value)
  {
    assert IsAllocated(base, images[i], existing, paths[..i], paths[i]);
    var extension := ImageExtension(images[i]).value;
    var name := WithExtension(base, extension);
    NamedForItsFormat(base, extension);
    if paths[i] != name {
      var n :| n >= 2 && paths[i] == Numbered(name, n);
      NumberKeepsFormat(name, n, extension);
    }
  }

  // ---------------------------------------------------------------- what a name becomes

  predicate HasNoDot(s: string) {
    forall i :: 0 <= i < |s| ==> s[i] != '.'
  }

  lemma {:induction false} NoDot(name: string)
    requires name == "" || HasNoDot(name[1..])
    ensures DotAt(name).None?
  {
    if |name| > 1 {
      assert name[|name| - 1] == name[1..][|name| - 2];
      assert forall i :: 0 <= i < |name| - 2 ==> name[..|name| - 1][1..][i] == name[1..][i];
      NoDot(name[..|name| - 1]);
    }
  }

  /** A number goes between the stem and the extension, and behind a name without one. */
  lemma NumberGoesBehindStem(stem: string, extension: string, number: nat)
    requires stem != "" && HasNoDot(extension)
    ensures Numbered(stem + "." + extension, number) == stem + "-" + Decimal(number) + "." + extension
    ensures HasNoDot(stem[1..]) ==> Numbered(stem, number) == stem + "-" + Decimal(number)
  {
    var name := stem + "." + extension;
    DotBehind(stem, extension);
    assert name[..|stem|] == stem && name[|stem| + 1..] == extension;
    Associates(stem + "-" + Decimal(number), ".", extension);
    if HasNoDot(stem[1..]) {
      NoDot(stem);
      assert stem + "-" + Decimal(number) + "" == stem + "-" + Decimal(number);
    }
  }

  /** Another image's extension is replaced, and any other ending stays in front of the new one. */
  lemma ExtensionIsReplaced(stem: string, current: string, extension: string)
    requires stem != "" && HasNoDot(current) && IsFormat(extension)
    ensures var says := Lower(current) == extension || (Lower(current) == "jpeg" && extension == "jpg");
            WithExtension(stem + "." + current, extension) ==
            if says then stem + "." + current
            else if Lower(current) in {"png", "jpg", "jpeg", "gif", "webp"} then stem + "." + extension
            else stem + "." + current + "." + extension
    ensures HasNoDot(stem[1..]) ==> WithExtension(stem, extension) == stem + "." + extension
  {
    var name := stem + "." + current;
    DotBehind(stem, current);
    assert name[..|stem|] == stem && name[|stem| + 1..] == current;
    if HasNoDot(stem[1..]) {
      NoDot(stem);
    }
  }
}
