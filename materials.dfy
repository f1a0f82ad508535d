/** Surface materials (src/renderables/material.rs): a plain record. */
module Materials {
  import opened Numbers

  /**
   * `Material { color: [u8; 3], opacity }`, the colour as three bytes.
   * `Material::new` is the datatype's own constructor.
   */
  datatype Material = Material(color: (u8, u8, u8), opacity: real)
}
