/** The Unsplash photo URLs the components use for their mock and default images. */
module Images {

  /** `https://images.unsplash.com/<photo>?ixlib=rb-1.2.1&auto=format&fit=crop&w=800&q=80`,
      the URL form every image of the sources shares. */
  function UnsplashImage(photo: string): string {
    "https://" + "images.unsplash.com/" + photo + "?ixlib=rb-" + "1.2.1&auto=" + "format&fit=" + "crop&w=800&q=" + "80"
  }
}
