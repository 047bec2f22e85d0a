/** The Cloudinary delivery URL both restaurant views build for an uploaded
    image: the cloud name (read from the environment, and rendered as
    "undefined" when it is not set), a transformation segment and the
    image's public id. */
module Cloudinary {
  import opened Common

  const Origin := "https://res.cloudinary.com/"
  const UploadPath := "/image/upload/"

  /** `${cloudName}` in a template literal. */
  function CloudSegment(cloudName: Option<string>): string {
    if cloudName.Some? then cloudName.value else "undefined"
  }

  /** The fixed part of a URL ahead of the public id. */
  function UrlPrefix(cloudName: Option<string>, transformations: string): string {
    Origin + CloudSegment(cloudName) + UploadPath + transformations + "/"
  }

  /** `https://res.cloudinary.com/${cloudName}/image/upload/${transformations}/${publicId}`:
      an https URL on Cloudinary's host that ends with "/" and the public id,
      after a prefix that does not depend on the public id. */
  function ImageUrl(cloudName: Option<string>, transformations: string, publicId: string): (url: string)
    ensures |url| == |UrlPrefix(cloudName, transformations)| + |publicId|
    ensures url[..|Origin|] == Origin
    ensures url[..|UrlPrefix(cloudName, transformations)|] == UrlPrefix(cloudName, transformations)
    ensures url[|url| - |publicId|..] == publicId && url[|url| - |publicId| - 1] == '/'
  {
    UrlPrefix(cloudName, transformations) + publicId
  }

  /** For a fixed cloud and transformation, distinct public ids give distinct URLs. */
  lemma ImageUrlInjective(cloudName: Option<string>, transformations: string, p: string, q: string)
    requires ImageUrl(cloudName, transformations, p) == ImageUrl(cloudName, transformations, q)
    ensures p == q
  {
    var k := |UrlPrefix(cloudName, transformations)|;
    assert p == ImageUrl(cloudName, transformations, p)[k..];
    assert q == ImageUrl(cloudName, transformations, q)[k..];
  }

  /** Transformations of different lengths never give the same URL for one image. */
  lemma ImageUrlSeparatesTransformations(cloudName: Option<string>, t: string, u: string, publicId: string)
    requires |t| != |u|
    ensures ImageUrl(cloudName, t, publicId) != ImageUrl(cloudName, u, publicId)
  {
  }
}
