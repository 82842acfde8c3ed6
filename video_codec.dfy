/** The video codec names of `src/FFmpeg.NET/Enums/VideoCodec.cs` and the rule that turns a
    member name into the token the tool expects: a leading `_` is removed and every `__`
    becomes `-`. */
module VideoCodecs {
  import opened Text

  /** The members, in declaration order. */
  const Names: seq<string> :=
    ["Default", "copy", "a64multi", "a64multi5", "alias_pix", "amv", "apng", "asv1", "asv2", "libaom__av1"]
    + ["avrp", "avui", "ayuv", "bmp", "cinepak", "cljr", "vc2", "dnxhd", "dpx", "dvvideo"]
    + ["ffv1", "ffvhuff", "fits", "flashsv", "flashsv2", "flv", "gif", "h261", "h263", "h263p"]
    + ["libx264", "libx264rgb", "h264_amf", "h264_nvenc", "h264_qsv", "nvenc", "nvenc_h264", "hap", "libx265", "nvenc_hevc"]
    + ["hevc_amf", "hevc_nvenc", "hevc_qsv", "huffyuv", "jpeg2000", "libopenjpeg", "jpegls", "ljpeg", "magicyuv", "mjpeg"]
    + ["mjpeg_qsv", "mpeg1video", "mpeg2video", "mpeg2_qsv", "mpeg4", "libxvid", "msmpeg4v2", "msmpeg4", "msvideo1", "pam"]
    + ["pbm", "pcx", "pgm", "pgmyuv", "png", "ppm", "prores", "prores_aw", "prores_ks", "qtrle"]
    + ["r10k", "r210", "rawvideo", "roqvideo", "rv10", "rv20", "sgi", "snow", "sunrast", "svq1"]
    + ["targa", "libtheora", "tiff", "utvideo", "v210", "v308", "v408", "v410", "libvpx", "libvpx__vp9"]
    + ["vp9_qsv", "libwebp_anim", "libwebp", "wmv1", "wmv2", "wrapped_avframe", "xbm", "xface", "xwd", "y41p"]
    + ["yuv4", "zlib", "zmbv"]

  /** The member the options object uses for "unset". */
  const Default: string := "Default"

  predicate NoDoubleUnderscore(s: string) {
    forall i :: 0 <= i && i + 1 < |s| ==> !(s[i] == '_' && s[i + 1] == '_')
  }

  /** `__` replaced by `-`, left to right, without overlaps. */
  function Dashes(s: string): string {
    ReplaceAll(s, "__", "-")
  }

  /** The token of a member name. */
  function Token(name: string): string {
    Dashes(if |name| > 0 && name[0] == '_' then name[1..] else name)
  }

  /** Replacing left to right leaves no `__` behind, and a string that does not begin with
      `_` keeps its first character. */
  lemma {:induction false} DashesNoDoubleUnderscore(s: string)
    ensures NoDoubleUnderscore(Dashes(s))
    ensures |s| > 0 && s[0] != '_' ==> |Dashes(s)| > 0 && Dashes(s)[0] == s[0]
    decreases |s|
  {
    if |s| >= 2 {
      if s[..2] == "__" {
        DashesNoDoubleUnderscore(s[2..]);
        assert Dashes(s) == "-" + Dashes(s[2..]);
      } else {
        DashesNoDoubleUnderscore(s[1..]);
        var rest := Dashes(s[1..]);
        assert Dashes(s) == [s[0]] + rest;
      }
    }
  }

  lemma NoDoubleUnderscoreNotContained(s: string)
    requires NoDoubleUnderscore(s)
    ensures !Contains(s, "__")
  {
    forall i: nat | i <= |s|
      ensures !StartsAt(s, i, "__")
    {
      if i + 2 <= |s| {
        assert s[i..i + 2][0] == s[i] && s[i..i + 2][1] == s[i + 1];
      }
    }
  }

  /** No token contains `__`. */
  lemma TokenHasNoDoubleUnderscore(name: string)
    ensures !Contains(Token(name), "__")
  {
    DashesNoDoubleUnderscore(if |name| > 0 && name[0] == '_' then name[1..] else name);
    NoDoubleUnderscoreNotContained(Token(name));
  }

  /** A string without `__` goes through the replacement unchanged. */
  lemma {:induction false} DashesIdentity(s: string)
    requires NoDoubleUnderscore(s)
    ensures Dashes(s) == s
    decreases |s|
  {
    if |s| >= 2 {
      assert s[..2] != "__" by {
        assert !(s[0] == '_' && s[1] == '_');
      }
      DashesIdentity(s[1..]);
      assert s == [s[0]] + s[1..];
    }
  }

  /** A name that neither begins with `_` nor contains `__` is its own token; a single
      interior `_` is kept. */
  lemma TokenIdentity(name: string)
    requires |name| == 0 || name[0] != '_'
    requires NoDoubleUnderscore(name)
    ensures Token(name) == name
  {
    DashesIdentity(name);
  }

  /** A leading `_` is removed. */
  lemma TokenDropsLeadingUnderscore(name: string)
    requires |name| > 1 && name[0] == '_' && name[1] != '_'
    requires NoDoubleUnderscore(name)
    ensures Token(name) == name[1..]
  {
    DashesIdentity(name[1..]);
  }

  /** `__` between two parts free of `_` becomes `-`. */
  lemma {:induction false} DashesJoin(a: string, b: string)
    requires forall i :: 0 <= i < |a| ==> a[i] != '_'
    requires NoDoubleUnderscore(b) && (|b| == 0 || b[0] != '_')
    ensures Dashes(a + "__" + b) == a + "-" + b
    decreases |a|
  {
    if a == [] {
      assert a + "__" + b == "__" + b;
      assert ("__" + b)[..2] == "__";
      assert ("__" + b)[2..] == b;
      DashesIdentity(b);
    } else {
      var s := a + "__" + b;
      assert s[1..] == a[1..] + "__" + b;
      assert s[..2] != "__" by {
        assert s[0] == a[0];
      }
      DashesJoin(a[1..], b);
    }
  }

  lemma TokenJoin(a: string, b: string)
    requires |a| > 0 && forall i :: 0 <= i < |a| ==> a[i] != '_'
    requires NoDoubleUnderscore(b) && (|b| == 0 || b[0] != '_')
    ensures Token(a + "__" + b) == a + "-" + b
  {
    assert (a + "__" + b)[0] == a[0];
    DashesJoin(a, b);
  }

  /** `libaom__av1` gives `libaom-av1`. */
  lemma LibaomToken()
    ensures Names[9] == "libaom__av1" && Token(Names[9]) == "libaom-av1"
  {
    assert Names[9] == "libaom" + "__" + "av1";
    TokenJoin("libaom", "av1");
  }

  /** `libvpx__vp9` gives `libvpx-vp9`. */
  lemma LibvpxToken()
    ensures Names[89] == "libvpx__vp9" && Token(Names[89]) == "libvpx-vp9"
  {
    assert Names[89] == "libvpx" + "__" + "vp9";
    TokenJoin("libvpx", "vp9");
  }

  /** `libx264` is its own token. */
  lemma LibxToken()
    ensures Names[30] == "libx264" && Token(Names[30]) == "libx264"
  {
    TokenIdentity(Names[30]);
  }

  /** `h264_nvenc` is its own token: a single interior underscore is kept. */
  lemma NvencToken()
    ensures Names[33] == "h264_nvenc" && Token(Names[33]) == "h264_nvenc"
  {
    TokenIdentity(Names[33]);
  }

  /** `Default` is the first member. */
  lemma DefaultFirst()
    ensures |Names| == 103 && Names[0] == Default
  {
  }
}
