/**
 * The plain data of engine/material.h and engine/light.h: surface materials
 * and the point light, objects whose fields the scene set-up assigns in place,
 * with the uniform setters of engine/material.cpp and engine/light.cpp.
 */
module Materials {
  import opened Common
  import opened Gl

  const G_MATERIAL_DIFFUSE_COLOR: string := "gMaterial._diffuseColor"
  const G_MATERIAL_SPECULAR_COLOR: string := "gMaterial._specularColor"
  const G_MATERIAL_SPECULAR_REFLECTIVITY: string := "gMaterial._specularReflectivity"
  const G_MATERIAL_DIFFUSE_REFLECTIVITY: string := "gMaterial._diffuseReflectivity"
  const G_MATERIAL_EMISSIVITY: string := "gMaterial._emissivity"
  const G_MATERIAL_APERTURE: string := "gMaterial._aperture"

  const G_POINT_LIGHT_POSITION: string := "gPointLight._position"
  const G_POINT_LIGHT_COLOR: string := "gPointLight._light._color"
  const G_POINT_LIGHT_INTENSITY: string := "gPointLight._light._intensity"
  const G_POINT_LIGHT_CONSTANT: string := "gPointLight._attenuation._constant"
  const G_POINT_LIGHT_LINEAR: string := "gPointLight._attenuation._linear"
  const G_POINT_LIGHT_QUADRATIC: string := "gPointLight._attenuation._quadratic"

  class Material {
    var diffuseColor: Vec3
    var specularColor: Vec3
    var specularReflectivity: real
    var diffuseReflectivity: real
    var emissivity: real
    var aperture: real

    /** Both colours start as the given one; the scalars take their defaults. */
    constructor(diffuseColor: Vec3)
      ensures this.diffuseColor == diffuseColor && specularColor == diffuseColor
      ensures specularReflectivity == 0.5 && diffuseReflectivity == 1.0
      ensures emissivity == 0.0 && aperture == 1.57
    {
      this.diffuseColor := diffuseColor;
      specularColor := diffuseColor;
      specularReflectivity, diffuseReflectivity, emissivity, aperture := 0.5, 1.0, 0.0, 1.57;
    }

    /** Material::setUniforms: select the program, then one uniform per field, colours first. */
    function UniformCalls(program: nat): seq<Call>
      reads this
    {
      [ UseProgram(program),
        SetUniform(G_MATERIAL_DIFFUSE_COLOR, Vec3Value(diffuseColor)),
        SetUniform(G_MATERIAL_SPECULAR_COLOR, Vec3Value(specularColor)),
        SetUniform(G_MATERIAL_SPECULAR_REFLECTIVITY, FloatValue(specularReflectivity)),
        SetUniform(G_MATERIAL_DIFFUSE_REFLECTIVITY, FloatValue(diffuseReflectivity)),
        SetUniform(G_MATERIAL_EMISSIVITY, FloatValue(emissivity)),
        SetUniform(G_MATERIAL_APERTURE, FloatValue(aperture)) ]
    }

    method SetUniforms(gl: Context, program: nat)
      modifies gl
      ensures gl.calls == old(gl.calls) + UniformCalls(program) && gl.lastName == old(gl.lastName)
    {
      gl.Issue(UseProgram(program));
      gl.Issue(SetUniform(G_MATERIAL_DIFFUSE_COLOR, Vec3Value(diffuseColor)));
      gl.Issue(SetUniform(G_MATERIAL_SPECULAR_COLOR, Vec3Value(specularColor)));
      gl.Issue(SetUniform(G_MATERIAL_SPECULAR_REFLECTIVITY, FloatValue(specularReflectivity)));
      gl.Issue(SetUniform(G_MATERIAL_DIFFUSE_REFLECTIVITY, FloatValue(diffuseReflectivity)));
      gl.Issue(SetUniform(G_MATERIAL_EMISSIVITY, FloatValue(emissivity)));
      gl.Issue(SetUniform(G_MATERIAL_APERTURE, FloatValue(aperture)));
    }
  }

  const DEFAULT_COLOR: Vec3 := Splat(1.0)
  const WHITE_COLOR: Vec3 := Vec3(0.97, 0.97, 0.97)
  const RED_COLOR: Vec3 := Vec3(1.0, 0.26, 0.27)
  const BLUE_COLOR: Vec3 := Vec3(0.35, 0.38, 1.0)

  class PointLight {
    var color: Vec3
    var intensity: real
    var position: Vec3
    var constant: real
    var linear: real
    var quadratic: real

    constructor()
      ensures color == Splat(1.0) && intensity == 1.0 && position == ZERO3
      ensures constant == 1.0 && linear == 0.0 && quadratic == 1.0
    {
      color, intensity, position := Splat(1.0), 1.0, ZERO3;
      constant, linear, quadratic := 1.0, 0.0, 1.0;
    }

    /** PointLight::setUniforms: position, colour, intensity and the three attenuation terms, to the program in use. */
    function UniformCalls(): seq<Call>
      reads this
    {
      [ SetUniform(G_POINT_LIGHT_POSITION, Vec3Value(position)),
        SetUniform(G_POINT_LIGHT_COLOR, Vec3Value(color)),
        SetUniform(G_POINT_LIGHT_INTENSITY, FloatValue(intensity)),
        SetUniform(G_POINT_LIGHT_CONSTANT, FloatValue(constant)),
        SetUniform(G_POINT_LIGHT_LINEAR, FloatValue(linear)),
        SetUniform(G_POINT_LIGHT_QUADRATIC, FloatValue(quadratic)) ]
    }

    method SetUniforms(gl: Context)
      modifies gl
      ensures gl.calls == old(gl.calls) + UniformCalls() && gl.lastName == old(gl.lastName)
    {
      gl.Issue(SetUniform(G_POINT_LIGHT_POSITION, Vec3Value(position)));
      gl.Issue(SetUniform(G_POINT_LIGHT_COLOR, Vec3Value(color)));
      gl.Issue(SetUniform(G_POINT_LIGHT_INTENSITY, FloatValue(intensity)));
      gl.Issue(SetUniform(G_POINT_LIGHT_CONSTANT, FloatValue(constant)));
      gl.Issue(SetUniform(G_POINT_LIGHT_LINEAR, FloatValue(linear)));
      gl.Issue(SetUniform(G_POINT_LIGHT_QUADRATIC, FloatValue(quadratic)));
    }
  }
}
